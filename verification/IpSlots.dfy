/**
  Per-IP session slots and the sliding attempt window
  (packages/nest-webtransport/src/server/webtransport-runtime.ts:1218-1275).

  `Slots` is the specification: tables as values, what each call does to the `active` counts, and the
  window bound over whole runs. `IpTables` is the mutable table with its purge and sweep loops.
*/
module Slots {
  import opened Sums

  const WINDOW_MS := 1_000

  datatype Limits = Limits(maxRecords: nat, maxPerIp: nat, perSecond: nat) {
    predicate Valid() {
      1 <= maxRecords && 1 <= maxPerIp && 1 <= perSecond
    }
  }

  /** A remote address. It is only ever compared for equality. */
  type Address = nat

  datatype Record = Record(active: nat, attempts: seq<int>)

  type Table = map<Address, Record>

  /** The clock readings one `acquire` makes, in the order it makes them. */
  datatype Readings = Readings(sweep: int, threshold: int, push: int)

  /** `attempts` without its leading entries at or before the threshold. */
  function Purge(attempts: seq<int>, threshold: int): seq<int> {
    if attempts == [] || threshold < attempts[0] then attempts else Purge(attempts[1..], threshold)
  }

  /** It drops exactly the longest prefix that is not after the threshold. */
  lemma {:induction false} PurgeDropsPrefix(attempts: seq<int>, threshold: int)
    ensures var r := Purge(attempts, threshold);
            && |r| <= |attempts| && r == attempts[|attempts| - |r|..]
            && (forall i :: 0 <= i < |attempts| - |r| ==> attempts[i] <= threshold)
            && (r != [] ==> threshold < r[0])
  {
    if attempts != [] && attempts[0] <= threshold {
      PurgeDropsPrefix(attempts[1..], threshold);
    }
  }

  function Active(t: Table, ip: Address): nat {
    if ip in t then t[ip].active else 0
  }

  function Attempts(t: Table, ip: Address): seq<int> {
    if ip in t then t[ip].attempts else []
  }

  /** A record that a sweep at this threshold deletes. */
  predicate Expired(r: Record, threshold: int) {
    r.active == 0 && Purge(r.attempts, threshold) == []
  }

  function Swept(r: Record, threshold: int): Record {
    if r.active == 0 then r.(attempts := Purge(r.attempts, threshold)) else r
  }

  function Sweep(t: Table, now: int): Table {
    map ip | ip in t && !Expired(t[ip], now - WINDOW_MS) :: Swept(t[ip], now - WINDOW_MS)
  }

  /** Whether the address has, or can be given, a record; and the table in which it is looked up. */
  function Admitted(t: Table, limits: Limits, ip: Address, now: int): (Table, bool) {
    if ip in t || |t| < limits.maxRecords then (t, true)
    else var swept := Sweep(t, now); (swept, |swept| < limits.maxRecords)
  }

  /** The purge and the two limit checks, for an address that may have a record. */
  function Take(t: Table, limits: Limits, ip: Address, clock: Readings): (Table, bool) {
    var active := Active(t, ip);
    var attempts := Purge(Attempts(t, ip), clock.threshold - WINDOW_MS);
    if active >= limits.maxPerIp || |attempts| >= limits.perSecond
    then (t[ip := Record(active, attempts)], false)
    else (t[ip := Record(active + 1, attempts + [clock.push])], true)
  }

  function Acquire(t: Table, limits: Limits, ip: Address, clock: Readings): (Table, bool) {
    var (table, admitted) := Admitted(t, limits, ip, clock.sweep);
    if admitted then Take(table, limits, ip, clock) else (table, false)
  }

  function Release(t: Table, ip: Address, now: int): Table {
    if ip !in t then t
    else
      var active := if t[ip].active == 0 then 0 else t[ip].active - 1;
      var attempts := Purge(t[ip].attempts, now - WINDOW_MS);
      if active == 0 && attempts == [] then t - {ip} else t[ip := Record(active, attempts)]
  }

  // ----- the counts -----

  ghost predicate Bounded(t: Table, limits: Limits) {
    && |t| <= limits.maxRecords
    && forall ip :: ip in t ==> t[ip].active <= limits.maxPerIp
  }

  lemma SweepIsSmaller(t: Table, now: int)
    ensures |Sweep(t, now)| <= |t|
    ensures forall ip :: Active(Sweep(t, now), ip) == Active(t, ip)
  {
    KeysShrink(Sweep(t, now), t);
  }

  lemma KeysShrink(small: Table, big: Table)
    requires small.Keys <= big.Keys
    ensures |small| <= |big|
  {
    SubsetSize(small.Keys, big.Keys);
  }

  lemma AdmittedCounts(t: Table, limits: Limits, ip: Address, now: int, other: Address)
    ensures var (t', ok) := Admitted(t, limits, ip, now);
            && Active(t', other) == Active(t, other)
            && (ok ==> ip in t' || |t'| < limits.maxRecords)
            && (Bounded(t, limits) ==> Bounded(t', limits))
  {
    SweepIsSmaller(t, now);
    hide Sweep;
    var t' := Admitted(t, limits, ip, now).0;
    if Bounded(t, limits) {
      forall k | k in t' ensures t'[k].active <= limits.maxPerIp {
        assert Active(t', k) == Active(t, k);
      }
    }
  }

  lemma TakeCounts(t: Table, limits: Limits, ip: Address, clock: Readings, other: Address)
    requires limits.Valid()
    requires ip in t || |t| < limits.maxRecords
    ensures var (t', ok) := Take(t, limits, ip, clock);
            && Active(t', other) == Active(t, other) + (if ok && other == ip then 1 else 0)
            && (ok ==> Active(t, ip) < limits.maxPerIp)
            && (Bounded(t, limits) ==> Bounded(t', limits))
  {
    hide Purge;
  }

  /** A granted slot is one more for its address and for no other; a refusal changes no count, even
      when it swept the table; and neither makes the table outgrow its limits. */
  lemma AcquireCounts(t: Table, limits: Limits, ip: Address, clock: Readings, other: Address)
    requires limits.Valid()
    ensures var (t', ok) := Acquire(t, limits, ip, clock);
            && Active(t', other) == Active(t, other) + (if ok && other == ip then 1 else 0)
            && (ok ==> Active(t, ip) < limits.maxPerIp)
            && (Bounded(t, limits) ==> Bounded(t', limits))
  {
    hide Bounded, Admitted, Take;
    var (table, admitted) := Admitted(t, limits, ip, clock.sweep);
    AdmittedCounts(t, limits, ip, clock.sweep, other);
    AdmittedCounts(t, limits, ip, clock.sweep, ip);
    if admitted {
      TakeCounts(table, limits, ip, clock, other);
    }
  }

  /** The clamp at zero never matters for an address that holds a slot, and no record of an address
      that still holds one is ever deleted. */
  lemma ReleaseCounts(t: Table, limits: Limits, ip: Address, now: int, other: Address)
    requires 0 < Active(t, ip)
    ensures var t' := Release(t, ip, now);
            && Active(t', other) == Active(t, other) - (if other == ip then 1 else 0)
            && (0 < Active(t', other) ==> other in t')
            && (Bounded(t, limits) ==> Bounded(t', limits))
  {
    KeysShrink(t - {ip}, t);
  }

  // ----- exactly when a slot is given, and what is forgotten -----

  /** Fewer than `n` of the attempts are left once those up to the threshold have gone from the front. */
  predicate RoomAt(attempts: seq<int>, threshold: int, n: nat) {
    forall i :: 0 <= i <= |attempts| - n ==> i < |attempts| && attempts[i] <= threshold
  }

  lemma PurgedHasRoomIff(attempts: seq<int>, threshold: int, n: nat)
    requires 1 <= n
    ensures |Purge(attempts, threshold)| < n <==> RoomAt(attempts, threshold, n)
  {
    hide Purge;
    PurgeDropsPrefix(attempts, threshold);
    var kept := Purge(attempts, threshold);
    if n <= |kept| {
      assert attempts[|attempts| - |kept|] == kept[0];
    }
  }

  /** A record that may not be forgotten: the address holds a slot or has an attempt after the threshold. */
  ghost predicate Live(r: Record, threshold: int) {
    0 < r.active || exists i :: 0 <= i < |r.attempts| && threshold < r.attempts[i]
  }

  ghost function LiveIn(t: Table, threshold: int): set<Address> {
    set ip | ip in t && Live(t[ip], threshold)
  }

  lemma ExpiredIff(r: Record, threshold: int)
    ensures Expired(r, threshold) <==> !Live(r, threshold)
  {
    hide Purge;
    PurgeDropsPrefix(r.attempts, threshold);
    var kept := Purge(r.attempts, threshold);
    if kept != [] {
      assert r.attempts[|r.attempts| - |kept|] == kept[0];
    }
  }

  /** A sweep leaves exactly the records that may not be forgotten. */
  lemma SweepLeavesTheLive(t: Table, now: int)
    ensures Sweep(t, now).Keys == LiveIn(t, now - WINDOW_MS)
  {
    hide Expired, Live, Swept;
    forall ip | ip in t
      ensures ip in Sweep(t, now) <==> Live(t[ip], now - WINDOW_MS)
    {
      ExpiredIff(t[ip], now - WINDOW_MS);
    }
  }

  /** The address has a record, or one can be made for it: the table is not full, or is not full of records
      that may not be forgotten. */
  ghost predicate HasRecordRoom(t: Table, limits: Limits, ip: Address, now: int) {
    ip in t || |t| < limits.maxRecords || |LiveIn(t, now - WINDOW_MS)| < limits.maxRecords
  }

  lemma AdmittedIff(t: Table, limits: Limits, ip: Address, now: int)
    ensures Admitted(t, limits, ip, now).1 <==> HasRecordRoom(t, limits, ip, now)
    ensures var t' := Admitted(t, limits, ip, now).0;
            && Active(t', ip) == Active(t, ip) && Attempts(t', ip) == Attempts(t, ip)
            && (forall other :: other in t' <==>
                  other in t && (ip in t || |t| < limits.maxRecords || Live(t[other], now - WINDOW_MS)))
  {
    hide Sweep, Live;
    SweepLeavesTheLive(t, now);
    assert |Sweep(t, now)| == |Sweep(t, now).Keys|;
    assert forall other :: other in Sweep(t, now) <==> other in Sweep(t, now).Keys;
  }

  /** A slot is given exactly if there is room for a record, the address holds fewer slots than its limit,
      and fewer than `perSecond` of its attempts are left in the window; so nobody is refused early. */
  lemma AcquireIff(t: Table, limits: Limits, ip: Address, clock: Readings)
    requires limits.Valid()
    ensures Acquire(t, limits, ip, clock).1 <==>
            && HasRecordRoom(t, limits, ip, clock.sweep)
            && Active(t, ip) < limits.maxPerIp
            && RoomAt(Attempts(t, ip), clock.threshold - WINDOW_MS, limits.perSecond)
  {
    hide Admitted, Purge, RoomAt, HasRecordRoom;
    AdmittedIff(t, limits, ip, clock.sweep);
    PurgedHasRoomIff(Attempts(t, ip), clock.threshold - WINDOW_MS, limits.perSecond);
  }

  /** Asking forgets no other address's record but, to make room in a full table, those that may be
      forgotten; and then all of them. */
  lemma AcquireForgets(t: Table, limits: Limits, ip: Address, clock: Readings, other: Address)
    requires other != ip
    ensures other in Acquire(t, limits, ip, clock).0 <==>
            other in t && (ip in t || |t| < limits.maxRecords || Live(t[other], clock.sweep - WINDOW_MS))
  {
    hide Admitted, Purge, Live;
    AdmittedIff(t, limits, ip, clock.sweep);
  }

  /** A release forgets the address exactly if this was its last slot and no attempt is left in the window. */
  lemma ReleaseForgets(t: Table, ip: Address, now: int, other: Address)
    ensures other in Release(t, ip, now) <==>
            other in t && (other != ip || 1 < t[ip].active || !RoomAt(t[ip].attempts, now - WINDOW_MS, 1))
  {
    hide Purge, RoomAt;
    if ip in t {
      PurgedHasRoomIff(t[ip].attempts, now - WINDOW_MS, 1);
    }
  }

  // ----- the window -----

  datatype Event = Asked(ip: Address, clock: Readings) | Freed(ip: Address, now: int)

  /** The table, the latest clock reading, and for each address the times of all its grants. */
  datatype Log = Log(table: Table, now: int, grants: map<Address, seq<int>>) {
    function Grants(ip: Address): seq<int> {
      if ip in grants then grants[ip] else []
    }
  }

  predicate ClockRuns(l: Log, e: Event) {
    match e
    case Asked(_, c) => l.now <= c.sweep <= c.threshold <= c.push
    case Freed(_, now) => l.now <= now
  }

  function Step(l: Log, limits: Limits, e: Event): Log {
    match e
    case Asked(ip, clock) =>
      var (t, ok) := Acquire(l.table, limits, ip, clock);
      Log(t, clock.push, if ok then l.grants[ip := l.Grants(ip) + [clock.push]] else l.grants)
    case Freed(ip, now) =>
      Log(Release(l.table, ip, now), now, l.grants)
  }

  ghost predicate Sorted(s: seq<int>) {
    forall i, j :: 0 <= i <= j < |s| ==> s[i] <= s[j]
  }

  /** No more than `n` entries ever fit into one half-open window. */
  ghost predicate Spaced(s: seq<int>, n: nat) {
    forall i, j :: 0 <= i && i + n <= j < |s| ==> WINDOW_MS <= s[j] - s[i]
  }

  /** What the table remembers is the end of the true history, and what it forgot is out of every
      window that is still open. */
  ghost predicate Remembered(grants: seq<int>, attempts: seq<int>, now: int) {
    && |attempts| <= |grants|
    && attempts == grants[|grants| - |attempts|..]
    && forall i :: 0 <= i < |grants| - |attempts| ==> grants[i] <= now - WINDOW_MS
  }

  ghost predicate HonestAt(grants: seq<int>, attempts: seq<int>, now: int, n: nat) {
    && Sorted(grants)
    && (forall i :: 0 <= i < |grants| ==> grants[i] <= now)
    && Spaced(grants, n)
    && Remembered(grants, attempts, now)
  }

  ghost predicate Honest(l: Log, limits: Limits, ip: Address) {
    HonestAt(l.Grants(ip), Attempts(l.table, ip), l.now, limits.perSecond)
  }

  lemma PurgeStaysHonest(grants: seq<int>, attempts: seq<int>, now: int, later: int, n: nat)
    requires HonestAt(grants, attempts, now, n) && now <= later
    ensures HonestAt(grants, Purge(attempts, later - WINDOW_MS), later, n)
  {
    PurgeStaysRemembered(grants, attempts, now, later);
    hide Purge, Remembered;
  }

  lemma PurgeStaysRemembered(grants: seq<int>, attempts: seq<int>, now: int, later: int)
    requires Remembered(grants, attempts, now) && now <= later
    ensures Remembered(grants, Purge(attempts, later - WINDOW_MS), later)
  {
    hide Purge;
    PurgeDropsPrefix(attempts, later - WINDOW_MS);
    var kept := Purge(attempts, later - WINDOW_MS);
    var d := |grants| - |attempts|;
    assert kept == grants[|grants| - |kept|..];
    forall i | 0 <= i < |grants| - |kept|
      ensures grants[i] <= later - WINDOW_MS
    {
      if d <= i {
        assert attempts[i - d] == grants[i];
      }
    }
  }

  lemma LaterStaysHonest(grants: seq<int>, attempts: seq<int>, now: int, later: int, n: nat)
    requires HonestAt(grants, attempts, now, n) && now <= later
    ensures HonestAt(grants, attempts, later, n)
  {
  }

  /** One more grant after a purge that left room keeps the spacing. */
  lemma GrantStaysHonest(grants: seq<int>, kept: seq<int>, now: int, push: int, n: nat)
    requires HonestAt(grants, kept, now, n)
    requires |kept| < n && now <= push
    ensures HonestAt(grants + [push], kept + [push], push, n)
  {
    var all := grants + [push];
    forall i, j | 0 <= i && i + n <= j < |all|
      ensures WINDOW_MS <= all[j] - all[i]
    {
      if j == |grants| {
        assert i < |grants| - |kept|;
        assert grants[i] <= now - WINDOW_MS;
      }
    }
    assert kept + [push] == all[|all| - |kept| - 1..];
  }

  lemma SweepStaysHonest(grants: seq<int>, t: Table, ip: Address, now: int, later: int, n: nat)
    requires HonestAt(grants, Attempts(t, ip), now, n) && now <= later
    ensures HonestAt(grants, Attempts(Sweep(t, later), ip), later, n)
  {
    hide HonestAt, Purge, Sweep, Attempts;
    PurgeStaysHonest(grants, Attempts(t, ip), now, later, n);
    LaterStaysHonest(grants, Attempts(t, ip), now, later, n);
    SweepAttempts(t, ip, later);
  }

  lemma SweepAttempts(t: Table, ip: Address, now: int)
    ensures var left := Attempts(Sweep(t, now), ip);
            left == Attempts(t, ip) || left == Purge(Attempts(t, ip), now - WINDOW_MS)
  {
    hide Purge;
  }

  lemma TakeAttempts(t: Table, limits: Limits, asked: Address, clock: Readings, ip: Address)
    ensures var (t', ok) := Take(t, limits, asked, clock);
            var kept := Purge(Attempts(t, asked), clock.threshold - WINDOW_MS);
            && Attempts(t', ip) == (if ip != asked then Attempts(t, ip) else if ok then kept + [clock.push] else kept)
            && (ok ==> |kept| < limits.perSecond)
  {
    hide Purge;
  }

  lemma TakeKeepsHonest(l: Log, limits: Limits, t: Table, asked: Address, clock: Readings, ip: Address)
    requires HonestAt(l.Grants(ip), Attempts(t, ip), clock.sweep, limits.perSecond)
    requires clock.sweep <= clock.threshold <= clock.push
    ensures var (t', ok) := Take(t, limits, asked, clock);
            Honest(Log(t', clock.push, if ok then l.grants[asked := l.Grants(asked) + [clock.push]] else l.grants), limits, ip)
  {
    hide HonestAt, Purge, Take, Attempts;
    var grants, n := l.Grants(ip), limits.perSecond;
    TakeAttempts(t, limits, asked, clock, ip);
    LaterStaysHonest(grants, Attempts(t, ip), clock.sweep, clock.push, n);
    if ip == asked {
      var kept := Purge(Attempts(t, ip), clock.threshold - WINDOW_MS);
      PurgeStaysHonest(grants, Attempts(t, ip), clock.sweep, clock.threshold, n);
      LaterStaysHonest(grants, kept, clock.threshold, clock.push, n);
      if |kept| < n {
        GrantStaysHonest(grants, kept, clock.threshold, clock.push, n);
      }
    }
  }

  lemma AskKeepsHonest(l: Log, limits: Limits, asked: Address, clock: Readings, ip: Address)
    requires Honest(l, limits, ip) && ClockRuns(l, Asked(asked, clock))
    ensures Honest(Step(l, limits, Asked(asked, clock)), limits, ip)
  {
    hide HonestAt, Sweep;
    var grants, n := l.Grants(ip), limits.perSecond;
    var (table, admitted) := Admitted(l.table, limits, asked, clock.sweep);
    SweepStaysHonest(grants, l.table, ip, l.now, clock.sweep, n);
    LaterStaysHonest(grants, Attempts(l.table, ip), l.now, clock.sweep, n);
    assert HonestAt(grants, Attempts(table, ip), clock.sweep, n);
    hide Admitted, Take;
    LaterStaysHonest(grants, Attempts(table, ip), clock.sweep, clock.push, n);
    if admitted {
      TakeKeepsHonest(l, limits, table, asked, clock, ip);
    }
  }

  lemma FreeKeepsHonest(l: Log, limits: Limits, freed: Address, now: int, ip: Address)
    requires Honest(l, limits, ip) && l.now <= now
    ensures Honest(Step(l, limits, Freed(freed, now)), limits, ip)
  {
    hide HonestAt, Purge;
    LaterStaysHonest(l.Grants(ip), Attempts(l.table, ip), l.now, now, limits.perSecond);
    if ip == freed {
      PurgeStaysHonest(l.Grants(ip), Attempts(l.table, ip), l.now, now, limits.perSecond);
    }
  }

  ghost predicate IsRun(limits: Limits, logs: seq<Log>, events: seq<Event>) {
    && |logs| == |events| + 1
    && logs[0].table == map[] && logs[0].grants == map[]
    && forall i :: 0 <= i < |events| ==> ClockRuns(logs[i], events[i]) && logs[i + 1] == Step(logs[i], limits, events[i])
  }

  lemma {:induction false} EveryRunIsHonest(limits: Limits, logs: seq<Log>, events: seq<Event>, k: nat, ip: Address)
    requires IsRun(limits, logs, events) && k < |logs|
    ensures Honest(logs[k], limits, ip)
  {
    if k != 0 {
      EveryRunIsHonest(limits, logs, events, k - 1, ip);
      assert logs[k - 1 + 1] == Step(logs[k - 1], limits, events[k - 1]);
      match events[k - 1] {
        case Asked(asked, clock) => AskKeepsHonest(logs[k - 1], limits, asked, clock, ip);
        case Freed(freed, now) => FreeKeepsHonest(logs[k - 1], limits, freed, now, ip);
      }
    }
  }

  /** In every run the next slot is given exactly if there is room for a record, the address holds fewer
      slots than its limit, and its `perSecond`-th latest grant, if it has that many, has left the window. */
  lemma GrantedExactly(limits: Limits, logs: seq<Log>, events: seq<Event>, k: nat, ip: Address, clock: Readings)
    requires limits.Valid() && IsRun(limits, logs, events) && k < |logs| && ClockRuns(logs[k], Asked(ip, clock))
    ensures var l := logs[k]; var grants := l.Grants(ip); var n := limits.perSecond;
            Acquire(l.table, limits, ip, clock).1 <==>
            && HasRecordRoom(l.table, limits, ip, clock.sweep)
            && Active(l.table, ip) < limits.maxPerIp
            && (n <= |grants| ==> grants[|grants| - n] <= clock.threshold - WINDOW_MS)
  {
    hide IsRun, Acquire, HasRecordRoom, Active, Attempts, Spaced;
    EveryRunIsHonest(limits, logs, events, k, ip);
    var l := logs[k];
    AcquireIff(l.table, limits, ip, clock);
    RememberedRoom(l.Grants(ip), Attempts(l.table, ip), l.now, clock.threshold, limits.perSecond);
  }

  lemma RememberedRoom(grants: seq<int>, attempts: seq<int>, now: int, later: int, n: nat)
    requires 1 <= n && Sorted(grants) && Remembered(grants, attempts, now) && now <= later
    ensures RoomAt(attempts, later - WINDOW_MS, n) <==> (n <= |grants| ==> grants[|grants| - n] <= later - WINDOW_MS)
  {
    var d := |grants| - |attempts|;
    if n <= |attempts| {
      assert attempts[|attempts| - n] == grants[|grants| - n];
      forall i | 0 <= i <= |attempts| - n && grants[|grants| - n] <= later - WINDOW_MS
        ensures attempts[i] <= later - WINDOW_MS
      {
        assert attempts[i] == grants[d + i];
      }
    }
  }

  /** How many entries fall into [from, from + WINDOW_MS). */
  function CountIn(s: seq<int>, from: int): nat {
    if s == [] then 0
    else CountIn(s[..|s| - 1], from) + if from <= s[|s| - 1] < from + WINDOW_MS then 1 else 0
  }

  lemma {:induction false} CountAtMostLength(s: seq<int>, from: int, i: nat)
    requires i <= |s|
    requires forall k :: 0 <= k < i ==> s[k] < from
    ensures CountIn(s, from) <= |s| - i
  {
    if s != [] {
      if i == |s| {
        assert s[i - 1] < from;
        CountAtMostLength(s[..|s| - 1], from, i - 1);
      } else {
        CountAtMostLength(s[..|s| - 1], from, i);
      }
    }
  }

  lemma {:induction false} SpacedMeansFew(s: seq<int>, n: nat, from: int)
    requires Sorted(s) && Spaced(s, n)
    ensures CountIn(s, from) <= n
  {
    if |s| > n {
      var last := s[|s| - 1];
      if last < from + WINDOW_MS {
        var i := |s| - n;
        forall k | 0 <= k < i
          ensures s[k] < from
        {
          assert WINDOW_MS <= s[|s| - 1] - s[k];
        }
        CountAtMostLength(s, from, i);
      } else {
        SpacedMeansFew(s[..|s| - 1], n, from);
      }
    } else {
      CountAtMostLength(s, from, 0);
    }
  }

  /** With a clock that does not run backwards: in every run, every half-open window of one second,
      wherever it starts, holds at most `perSecond` grants of any one address, although records are
      purged, swept, deleted and re-created along the way. */
  lemma EveryWindowIsBounded(limits: Limits, logs: seq<Log>, events: seq<Event>, k: nat, ip: Address, from: int)
    requires IsRun(limits, logs, events) && k < |logs|
    ensures CountIn(logs[k].Grants(ip), from) <= limits.perSecond
  {
    EveryRunIsHonest(limits, logs, events, k, ip);
    assert HonestAt(logs[k].Grants(ip), Attempts(logs[k].table, ip), logs[k].now, limits.perSecond);
    SpacedMeansFew(logs[k].Grants(ip), limits.perSecond, from);
  }
}

module IpTables {
  import S = Slots

  class IpTable {
    const limits: S.Limits
    var records: map<S.Address, S.Record>

    constructor (limits: S.Limits)
      ensures records == map[] && this.limits == limits
    {
      this.limits := limits;
      records := map[];
    }

    /** Takes a session slot for the address. The clock readings are parameters. */
    method Acquire(ip: S.Address, clock: S.Readings) returns (ok: bool)
      modifies this`records
      ensures (records, ok) == S.Acquire(old(records), limits, ip, clock)
    {
      hide S.Sweep, S.Take;
      if ip !in records && |records| >= limits.maxRecords {
        SweepExpired(clock.sweep);
        if |records| >= limits.maxRecords {
          return false;
        }
      }
      assert (records, true) == S.Admitted(old(records), limits, ip, clock.sweep);
      ok := Take(ip, clock);
    }

    method Take(ip: S.Address, clock: S.Readings) returns (ok: bool)
      modifies this`records
      ensures (records, ok) == S.Take(old(records), limits, ip, clock)
    {
      hide S.Purge;
      ghost var before := records;
      if ip !in records {
        records := records[ip := S.Record(0, [])];
      }
      var record := records[ip];
      var attempts := PurgeBefore(record.attempts, clock.threshold - S.WINDOW_MS);
      records := records[ip := record.(attempts := attempts)];
      if record.active >= limits.maxPerIp || |attempts| >= limits.perSecond {
        assert records == before[ip := S.Record(record.active, attempts)];
        return false;
      }
      records := records[ip := S.Record(record.active + 1, attempts + [clock.push])];
      assert records == before[ip := S.Record(record.active + 1, attempts + [clock.push])];
      return true;
    }

    method SweepExpired(now: int)
      modifies this`records
      ensures records == S.Sweep(old(records), now)
    {
      hide S.Purge;
      var threshold := now - S.WINDOW_MS;
      var todo := records.Keys;
      while todo != {}
        invariant todo <= records.Keys <= old(records).Keys
        invariant forall ip :: ip in todo ==> records[ip] == old(records)[ip]
        invariant forall ip :: ip in old(records) && ip !in todo ==>
          (ip in records <==> !S.Expired(old(records)[ip], threshold))
        invariant forall ip :: ip in records && ip !in todo ==>
          records[ip] == S.Swept(old(records)[ip], threshold)
        decreases todo
      {
        var ip :| ip in todo;
        todo := todo - {ip};
        var record := records[ip];
        if record.active == 0 {
          var attempts := PurgeBefore(record.attempts, threshold);
          if |attempts| == 0 {
            records := records - {ip};
          } else {
            records := records[ip := record.(attempts := attempts)];
          }
        }
      }
    }

    method Release(ip: S.Address, now: int)
      modifies this`records
      ensures records == S.Release(old(records), ip, now)
    {
      hide S.Purge;
      if ip !in records {
        return;
      }
      var record := records[ip];
      var attempts := PurgeBefore(record.attempts, now - S.WINDOW_MS);
      var active := if record.active == 0 then 0 else record.active - 1;
      if active == 0 && |attempts| == 0 {
        records := records - {ip};
      } else {
        records := records[ip := S.Record(active, attempts)];
      }
    }

    /** The loop that shifts stale attempts off the front. */
    static method PurgeBefore(attempts: seq<int>, threshold: int) returns (kept: seq<int>)
      ensures kept == S.Purge(attempts, threshold)
    {
      kept := attempts;
      while 0 < |kept| && kept[0] <= threshold
        invariant S.Purge(kept, threshold) == S.Purge(attempts, threshold)
        decreases |kept|
      {
        kept := kept[1..];
      }
    }
  }
}
