/**
 * Admission of temporary previews. Each user and each address has one bucket with an hour counter
 * and a day counter; a ghost log of every charged attempt says what the counters stand for.
 */
module AbuseGuard {
  import opened Options
  import opened Texts

  const HOUR: int := 60 * 60 * 1_000
  const DAY: int := 24 * HOUR

  datatype Key = User(id: string) | Ip(address: string)
  datatype Bucket = Bucket(hourStart: int, dayStart: int, hourCount: nat, dayCount: nat)

  function BucketStart(now: int, duration: int): (s: int)
    requires duration > 0
    ensures s <= now < s + duration
  {
    DivMod(now, duration);
    now / duration * duration
  }

  lemma DivMod(n: int, d: int)
    requires d > 0
    ensures n == n / d * d + n % d
  {}

  // A moment at which a window of that length begins.
  predicate Aligned(s: int, duration: int) requires duration > 0 {
    BucketStart(s, duration) == s
  }

  lemma Distribute(y: int, d: int)
    ensures (y + 1) * d == y * d + d
  {}

  lemma {:induction false} Products(x: int, y: int, d: int)
    requires d > 0
    ensures x < y ==> x * d + d <= y * d
    decreases y - x
  {
    if x < y {
      Distribute(y - 1, d);
      Products(x, y - 1, d);
    }
  }

  lemma StartIsAligned(now: int, duration: int)
    requires duration > 0
    ensures Aligned(BucketStart(now, duration), duration)
  {
    var q, s := now / duration, BucketStart(now, duration);
    Products(s / duration, q, duration);
    Products(q, s / duration, duration);
  }

  // How many of the recorded times are in the window that begins at `start`.
  function InWindow(times: seq<int>, start: int, duration: int): (n: nat) {
    if times == [] then 0
    else
      var last := times[|times| - 1];
      InWindow(times[..|times| - 1], start, duration) + (if start <= last < start + duration then 1 else 0)
  }

  lemma InWindowGrows(times: seq<int>, t: int, start: int, duration: int)
    ensures InWindow(times + [t], start, duration) ==
              InWindow(times, start, duration) + (if start <= t < start + duration then 1 else 0)
  {
    assert (times + [t])[..|times|] == times;
  }

  lemma {:induction false} NoneInLaterWindow(times: seq<int>, start: int, duration: int)
    requires forall i :: 0 <= i < |times| ==> times[i] < start
    ensures InWindow(times, start, duration) == 0
  {
    if times != [] { NoneInLaterWindow(times[..|times| - 1], start, duration); }
  }

  // ---- One bucket against the full record of one key ----

  // The counts that matter at time `now`.
  function HourCount(b: Option<Bucket>, now: int): (n: nat) {
    if b.Some? && b.value.hourStart == BucketStart(now, HOUR) then b.value.hourCount else 0
  }

  function DayCount(b: Option<Bucket>, now: int): (n: nat) {
    if b.Some? && b.value.dayStart == BucketStart(now, DAY) then b.value.dayCount else 0
  }

  // The bucket counts the attempts of its own hour and day, and none are later.
  ghost predicate Counts(b: Option<Bucket>, times: seq<int>, clock: int) {
    && (b.None? ==> times == [])
    && (b.Some? ==>
          && Aligned(b.value.hourStart, HOUR) && Aligned(b.value.dayStart, DAY)
          && b.value.hourStart <= clock && b.value.dayStart <= clock
          && b.value.hourCount == InWindow(times, b.value.hourStart, HOUR)
          && b.value.dayCount == InWindow(times, b.value.dayStart, DAY)
          && (forall i :: 0 <= i < |times| ==>
                times[i] < b.value.hourStart + HOUR && times[i] < b.value.dayStart + DAY))
  }

  // With a clock that never goes back, the two counters say what the full record says.
  lemma CountersAreRight(b: Option<Bucket>, times: seq<int>, clock: int, now: int)
    requires Counts(b, times, clock) && clock <= now
    ensures HourCount(b, now) == InWindow(times, BucketStart(now, HOUR), HOUR)
    ensures DayCount(b, now) == InWindow(times, BucketStart(now, DAY), DAY)
  {
    if b.Some? {
      var hour, day := BucketStart(now, HOUR), BucketStart(now, DAY);
      if b.value.hourStart != hour {
        LaterWindow(b.value.hourStart, hour, now, HOUR);
        NoneInLaterWindow(times, hour, HOUR);
      }
      if b.value.dayStart != day {
        LaterWindow(b.value.dayStart, day, now, DAY);
        NoneInLaterWindow(times, day, DAY);
      }
    }
  }

  // Another aligned window that began no later is over.
  lemma LaterWindow(a: int, b: int, now: int, duration: int)
    requires duration > 0 && Aligned(a, duration) && b == BucketStart(now, duration) && a <= now && a != b
    ensures a + duration <= b
  {
    var q, r := a / duration, now / duration;
    Products(q, r, duration);
    Products(r, q, duration);
  }

  // No aligned hour and no aligned day of the record holds more than its limit.
  ghost predicate Limited(times: seq<int>, maxPerHour: nat, maxPerDay: nat) {
    && (forall w :: Aligned(w, HOUR) ==> InWindow(times, w, HOUR) <= maxPerHour)
    && (forall w :: Aligned(w, DAY) ==> InWindow(times, w, DAY) <= maxPerDay)
  }

  lemma SameWindow(w: int, t: int, duration: int)
    requires duration > 0 && Aligned(w, duration) && w <= t < w + duration
    ensures w == BucketStart(t, duration)
  {
    Products(w / duration, t / duration, duration);
    Products(t / duration, w / duration, duration);
  }

  lemma ChargingKeepsLimits(times: seq<int>, now: int, maxPerHour: nat, maxPerDay: nat)
    requires Limited(times, maxPerHour, maxPerDay)
    requires InWindow(times, BucketStart(now, HOUR), HOUR) < maxPerHour
    requires InWindow(times, BucketStart(now, DAY), DAY) < maxPerDay
    ensures Limited(times + [now], maxPerHour, maxPerDay)
  {
    forall w | Aligned(w, HOUR) ensures InWindow(times + [now], w, HOUR) <= maxPerHour {
      InWindowGrows(times, now, w, HOUR);
      if w <= now < w + HOUR { SameWindow(w, now, HOUR); }
    }
    forall w | Aligned(w, DAY) ensures InWindow(times + [now], w, DAY) <= maxPerDay {
      InWindowGrows(times, now, w, DAY);
      if w <= now < w + DAY { SameWindow(w, now, DAY); }
    }
  }

  // The bucket at time `now`, with the counts of windows that are over reset.
  function Current(b: Option<Bucket>, now: int): (r: Bucket) {
    Bucket(BucketStart(now, HOUR), BucketStart(now, DAY), HourCount(b, now), DayCount(b, now))
  }

  lemma CurrentCounts(b: Option<Bucket>, times: seq<int>, clock: int, now: int)
    requires Counts(b, times, clock) && clock <= now
    ensures Counts(Some(Current(b, now)), times, now)
  {
    CountersAreRight(b, times, clock, now);
    StartIsAligned(now, HOUR);
    StartIsAligned(now, DAY);
    if b.Some? {
      var hour, day := BucketStart(now, HOUR), BucketStart(now, DAY);
      if b.value.hourStart != hour { LaterWindow(b.value.hourStart, hour, now, HOUR); }
      if b.value.dayStart != day { LaterWindow(b.value.dayStart, day, now, DAY); }
    }
  }

  lemma ChargedCounts(b: Bucket, times: seq<int>, now: int)
    requires Counts(Some(b), times, now) && b.hourStart == BucketStart(now, HOUR) && b.dayStart == BucketStart(now, DAY)
    ensures Counts(Some(b.(hourCount := b.hourCount + 1, dayCount := b.dayCount + 1)), times + [now], now)
  {
    InWindowGrows(times, now, b.hourStart, HOUR);
    InWindowGrows(times, now, b.dayStart, DAY);
  }

  // Seconds until the window is over, rounded up, at least one.
  function RetryAfter(milliseconds: int): (s: int)
    ensures s >= 1 && s * 1_000 >= milliseconds
    ensures s > 1 ==> (s - 1) * 1_000 < milliseconds
  {
    var s := (milliseconds + 999) / 1_000;
    if s < 1 then 1 else s
  }

  // ---- The guard ----

  datatype Refusal = Invalid | RateLimited(retryAfterSeconds: int)

  class Lease {
    const appKey: string
    var released: bool

    constructor (appKey: string)
      ensures this.appKey == appKey && !released
    {
      this.appKey, released := appKey, false;
    }
  }

  ghost function HeldFor(held: set<Lease>, app: string): (s: set<Lease>) {
    set l | l in held && l.appKey == app
  }

  ghost predicate ActiveMatches(active: map<string, nat>, held: set<Lease>) {
    forall app :: Active(active, app) == |HeldFor(held, app)|
  }

  lemma HoldingOneMore(active: map<string, nat>, held: set<Lease>, l: Lease)
    requires ActiveMatches(active, held) && l !in held
    ensures ActiveMatches(active[l.appKey := Active(active, l.appKey) + 1], held + {l})
  {
    forall app ensures HeldFor(held + {l}, app) == HeldFor(held, app) + (if app == l.appKey then {l} else {}) {}
  }

  lemma HoldingOneLess(active: map<string, nat>, held: set<Lease>, l: Lease)
    requires ActiveMatches(active, held) && l in held
    ensures l.appKey in active && active[l.appKey] >= 1
    ensures ActiveMatches(active[l.appKey := active[l.appKey] - 1], held - {l})
    ensures active[l.appKey] == 1 ==> ActiveMatches(active - {l.appKey}, held - {l})
  {
    assert l in HeldFor(held, l.appKey);
    forall app ensures HeldFor(held - {l}, app) == HeldFor(held, app) - (if app == l.appKey then {l} else {}) {}
  }

  // ---- All keys together ----

  function BucketOf(buckets: map<Key, Bucket>, k: Key): (b: Option<Bucket>) {
    if k in buckets then Some(buckets[k]) else None
  }

  function Times(log: map<Key, seq<int>>, k: Key): (s: seq<int>) {
    if k in log then log[k] else []
  }

  ghost predicate Recorded(buckets: map<Key, Bucket>, log: map<Key, seq<int>>, clock: int) {
    forall k :: Counts(BucketOf(buckets, k), Times(log, k), clock)
  }

  ghost predicate AllLimited(log: map<Key, seq<int>>, maxPerHour: nat, maxPerDay: nat) {
    forall k :: Limited(Times(log, k), maxPerHour, maxPerDay)
  }

  lemma RecordedLater(buckets: map<Key, Bucket>, log: map<Key, seq<int>>, clock: int, now: int)
    requires Recorded(buckets, log, clock) && clock <= now
    ensures Recorded(buckets, log, now)
  {}

  lemma RecordedAt(buckets: map<Key, Bucket>, log: map<Key, seq<int>>, clock: int, k: Key, b: Bucket, times: seq<int>)
    requires Recorded(buckets, log, clock) && Counts(Some(b), times, clock)
    ensures Recorded(buckets[k := b], log[k := times], clock)
  {
    hide Counts;
    var buckets2, log2 := buckets[k := b], log[k := times];
    forall j ensures Counts(BucketOf(buckets2, j), Times(log2, j), clock) {
      if j != k { assert Counts(BucketOf(buckets, j), Times(log, j), clock); }
    }
  }

  lemma LimitedAt(log: map<Key, seq<int>>, k: Key, times: seq<int>, maxPerHour: nat, maxPerDay: nat)
    requires AllLimited(log, maxPerHour, maxPerDay) && Limited(times, maxPerHour, maxPerDay)
    ensures AllLimited(log[k := times], maxPerHour, maxPerDay)
  {
    hide Limited;
    var log2 := log[k := times];
    forall j ensures Limited(Times(log2, j), maxPerHour, maxPerDay) {
      if j != k { assert Limited(Times(log, j), maxPerHour, maxPerDay); }
    }
  }

  // There is room for one more attempt in the current hour and day of the record.
  ghost predicate HasRoom(times: seq<int>, now: int, maxPerHour: nat, maxPerDay: nat) {
    && InWindow(times, BucketStart(now, HOUR), HOUR) < maxPerHour
    && InWindow(times, BucketStart(now, DAY), DAY) < maxPerDay
  }

  // Waiting that long leaves the window that is full, the hour if it is and otherwise the day, and a second less does
  // not, unless only a second is asked for.
  ghost predicate ReachesTheEnd(times: seq<int>, now: int, maxPerHour: nat, seconds: int) {
    var full := if InWindow(times, BucketStart(now, HOUR), HOUR) >= maxPerHour then HOUR else DAY;
    && now + seconds * 1_000 >= BucketStart(now, full) + full
    && seconds >= 1 && (seconds > 1 ==> now + (seconds - 1) * 1_000 < BucketStart(now, full) + full)
  }

  // All that charging one attempt changes.
  lemma ChargeIsRecorded(
    buckets: map<Key, Bucket>, log: map<Key, seq<int>>, clock: int, k: Key, now: int, maxPerHour: nat, maxPerDay: nat)
    requires Recorded(buckets, log, clock) && AllLimited(log, maxPerHour, maxPerDay) && clock <= now
    ensures Recorded(buckets, log, now)
    ensures Recorded(buckets[k := Current(BucketOf(buckets, k), now)], log, now)
    ensures HasRoom(Times(log, k), now, maxPerHour, maxPerDay) <==>
              HourCount(BucketOf(buckets, k), now) < maxPerHour && DayCount(BucketOf(buckets, k), now) < maxPerDay
    ensures HourCount(BucketOf(buckets, k), now) == InWindow(Times(log, k), BucketStart(now, HOUR), HOUR)
    ensures HasRoom(Times(log, k), now, maxPerHour, maxPerDay) ==>
              && Recorded(buckets[k := Charged(BucketOf(buckets, k), now)], log[k := Times(log, k) + [now]], now)
              && AllLimited(log[k := Times(log, k) + [now]], maxPerHour, maxPerDay)
  {
    var b, times := BucketOf(buckets, k), Times(log, k);
    assert Counts(b, times, clock) && Limited(times, maxPerHour, maxPerDay);
    hide Counts, Limited, InWindow, HourCount, DayCount;
    RecordedLater(buckets, log, clock, now);
    CountersAreRight(b, times, clock, now);
    CurrentCounts(b, times, clock, now);
    RecordedAt(buckets, log, now, k, Current(b, now), times);
    SameRecord(buckets[k := Current(b, now)], log, k, now);
    if HasRoom(times, now, maxPerHour, maxPerDay) {
      ChargedCounts(Current(b, now), times, now);
      RecordedAt(buckets, log, now, k, Charged(b, now), times + [now]);
      ChargingKeepsLimits(times, now, maxPerHour, maxPerDay);
      LimitedAt(log, k, times + [now], maxPerHour, maxPerDay);
    }
  }

  lemma SameRecord(buckets: map<Key, Bucket>, log: map<Key, seq<int>>, k: Key, clock: int)
    requires Recorded(buckets, log[k := Times(log, k)], clock)
    ensures Recorded(buckets, log, clock)
  {
    hide Counts;
    forall j ensures Counts(BucketOf(buckets, j), Times(log, j), clock) {
      assert Counts(BucketOf(buckets, j), Times(log[k := Times(log, k)], j), clock);
    }
  }

  function OneLess(n: nat): (m: nat) {
    if n >= 1 then n - 1 else 0
  }

  function Charged(b: Option<Bucket>, now: int): (r: Bucket) {
    var c := Current(b, now);
    c.(hourCount := c.hourCount + 1, dayCount := c.dayCount + 1)
  }

  // What two buckets that stand for the same record say from now on.
  lemma SameCountsFromNow(a: Option<Bucket>, b: Option<Bucket>, times: seq<int>, clock: int, later: int)
    requires Counts(a, times, clock) && Counts(b, times, clock) && clock <= later
    ensures HourCount(a, later) == HourCount(b, later) && DayCount(a, later) == DayCount(b, later)
  {
    CountersAreRight(a, times, clock, later);
    CountersAreRight(b, times, clock, later);
  }

  class TemporaryPreviewAbuseGuard {
    const maxPerHour: nat
    const maxPerDay: nat
    const maxActivePerApp: nat
    var buckets: map<Key, Bucket>
    var activeApps: map<string, nat>

    ghost var log: map<Key, seq<int>>     // charged attempts of each key, oldest first
    ghost var clock: int                  // the latest time seen
    ghost var held: set<Lease>            // leases not yet released

    ghost predicate Valid() reads this {
      && Recorded(buckets, log, clock)
      && AllLimited(log, maxPerHour, maxPerDay)
      && ActiveMatches(activeApps, held)
      && (forall app :: app in activeApps ==> activeApps[app] <= maxActivePerApp)
    }

    constructor (maxPerHour: nat, maxPerDay: nat, maxActivePerApp: nat, ghost start: int)
      ensures Valid() && log == map[] && held == {} && clock == start
      ensures this.maxPerHour == maxPerHour && this.maxPerDay == maxPerDay && this.maxActivePerApp == maxActivePerApp
    {
      this.maxPerHour, this.maxPerDay, this.maxActivePerApp := maxPerHour, maxPerDay, maxActivePerApp;
      buckets, activeApps, log, clock, held := map[], map[], map[], start, {};
    }

    // Charged exactly when the full record still has room in the current hour and day.
    method Consume(k: Key, now: int) returns (refused: Option<Refusal>)
      requires Valid() && clock <= now
      modifies this`buckets, this`log, this`clock
      ensures Valid() && clock == now
      ensures refused.None? <==> HasRoom(Times(old(log), k), now, maxPerHour, maxPerDay)
      ensures refused.None? ==>
                && log == old(log)[k := Times(old(log), k) + [now]]
                && buckets == old(buckets)[k := Charged(BucketOf(old(buckets), k), now)]
      ensures refused.Some? ==>
                && log == old(log) && buckets == old(buckets) && refused.value.RateLimited?
                && ReachesTheEnd(Times(old(log), k), now, maxPerHour, refused.value.retryAfterSeconds)
    {
      hide Recorded, AllLimited, ActiveMatches, HasRoom, InWindow;
      ChargeIsRecorded(buckets, log, clock, k, now, maxPerHour, maxPerDay);
      var current := BucketOf(buckets, k);
      var hourStart, dayStart := BucketStart(now, HOUR), BucketStart(now, DAY);
      var bucket;
      if current.Some? && current.value.hourStart == hourStart && current.value.dayStart == dayStart {
        bucket := current.value;
      } else {
        bucket := Bucket(hourStart, dayStart,
                         if current.Some? && current.value.hourStart == hourStart then current.value.hourCount else 0,
                         if current.Some? && current.value.dayStart == dayStart then current.value.dayCount else 0);
      }
      assert bucket == Current(current, now);
      clock := now;
      if bucket.hourCount >= maxPerHour { return Some(RateLimited(RetryAfter(hourStart + HOUR - now))); }
      if bucket.dayCount >= maxPerDay { return Some(RateLimited(RetryAfter(dayStart + DAY - now))); }
      bucket := bucket.(hourCount := bucket.hourCount + 1, dayCount := bucket.dayCount + 1);
      buckets := buckets[k := bucket];
      log := log[k := Times(log, k) + [now]];
      return None;
    }

    // Both identities have room, or nobody is charged; only the limit per App comes after charging.
    method Acquire(userId: string, ipAddress: string, appId: string, now: int)
      returns (refused: Option<Refusal>, lease: Lease?)
      requires Valid() && clock <= now
      modifies this
      ensures Valid() && clock >= old(clock)
      ensures refused.None? <==> lease != null
      ensures var user, ip, app := User(Trim(userId)), Ip(Trim(ipAddress)), Trim(appId);
              var named := user.id != "" && ip.address != "" && app != "";
              var roomy := HasRoom(Times(old(log), user), now, maxPerHour, maxPerDay)
                           && HasRoom(Times(old(log), ip), now, maxPerHour, maxPerDay);
              && (named && roomy ==>
                    && log == old(log)[user := Times(old(log), user) + [now]][ip := Times(old(log), ip) + [now]]
                    && refused == (if Active(old(activeApps), app) < maxActivePerApp then None
                                   else Some(RateLimited(60))))
              && (!named || !roomy ==> log == old(log) && refused.Some? && SameCounts(old(buckets), buckets, now))
              && (!named <==> refused == Some(Invalid))
              && (named && !roomy ==>
                    && refused.value.RateLimited?
                    && ReachesTheEnd(
                         Times(old(log),
                               if HasRoom(Times(old(log), user), now, maxPerHour, maxPerDay) then ip else user),
                         now, maxPerHour, refused.value.retryAfterSeconds))
              && (lease != null ==>
                    && fresh(lease) && lease.appKey == app && !lease.released
                    && held == old(held) + {lease})
              && (lease == null ==> held == old(held) && activeApps == old(activeApps))
    {
      hide Recorded, AllLimited, ActiveMatches, HasRoom, Current, Trim;
      var user, ip, app := User(Trim(userId)), Ip(Trim(ipAddress)), Trim(appId);
      NothingChanged(buckets, now);
      if user.id == "" || ip.address == "" || app == "" { return Some(Invalid), null; }
      ghost var log0, buckets0 := log, buckets;
      ChargeIsRecorded(buckets, log, clock, user, now, maxPerHour, maxPerDay);
      refused := Consume(user, now);
      if refused.Some? { return refused, null; }
      refused := Consume(ip, now);
      if refused.Some? {
        var bucket := buckets[user];
        buckets := buckets[user :=
          bucket.(hourCount := OneLess(bucket.hourCount), dayCount := OneLess(bucket.dayCount))];
        log := log0;
        assert buckets == buckets0[user := Current(BucketOf(buckets0, user), now)];
        RefundIsInvisible(buckets0, log0, user, now);
        return refused, null;
      }
      var active := Active(activeApps, app);
      if active >= maxActivePerApp { return Some(RateLimited(60)), null; }
      lease := new Lease(app);
      HoldingOneMore(activeApps, held, lease);
      activeApps := activeApps[app := active + 1];
      held := held + {lease};
      return None, lease;
    }

    // Releasing twice is releasing once.
    method Release(lease: Lease)
      requires Valid() && (lease.released <==> lease !in held)
      modifies this`activeApps, this`held, lease
      ensures Valid() && lease.released && held == old(held) - {lease}
    {
      hide Recorded, AllLimited, ActiveMatches;
      if lease.released { return; }
      lease.released := true;
      var app := lease.appKey;
      HoldingOneLess(activeApps, held, lease);
      var count := Active(activeApps, app);
      if count <= 1 { activeApps := activeApps - {app}; } else { activeApps := activeApps[app := count - 1]; }
      held := held - {lease};
    }
  }

  function Active(active: map<string, nat>, app: string): (n: nat) {
    if app in active then active[app] else 0
  }

  // From now on the buckets say the same of every key.
  ghost predicate SameCounts(a: map<Key, Bucket>, b: map<Key, Bucket>, now: int) {
    forall k, t :: now <= t ==>
      && HourCount(BucketOf(a, k), t) == HourCount(BucketOf(b, k), t)
      && DayCount(BucketOf(a, k), t) == DayCount(BucketOf(b, k), t)
  }

  lemma NothingChanged(buckets: map<Key, Bucket>, now: int)
    ensures SameCounts(buckets, buckets, now)
  {}

  lemma RefundIsInvisible(buckets: map<Key, Bucket>, log: map<Key, seq<int>>, user: Key, now: int)
    requires Recorded(buckets, log, now) && Recorded(buckets[user := Current(BucketOf(buckets, user), now)], log, now)
    ensures SameCounts(buckets, buckets[user := Current(BucketOf(buckets, user), now)], now)
  {
    var after := buckets[user := Current(BucketOf(buckets, user), now)];
    hide Counts, HourCount, DayCount, Current;
    forall k, t | now <= t
      ensures HourCount(BucketOf(buckets, k), t) == HourCount(BucketOf(after, k), t)
      ensures DayCount(BucketOf(buckets, k), t) == DayCount(BucketOf(after, k), t)
    {
      SameCountsFromNow(BucketOf(buckets, k), BucketOf(after, k), Times(log, k), now, t);
    }
  }
}
