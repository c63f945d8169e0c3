/**
 * The per-key rate limiter: a token bucket per client, kept in a map from which idle entries are
 * swept. Time is in nanoseconds. A bucket is counted in units so that everything is a whole number:
 * one token is COST units, and rpm units flow in every nanosecond, which is rpm tokens a minute.
 */
module Limiter {
  import opened Text
  import opened Domain

  const COST: int := 60_000_000_000
  const IDLE: int := 600_000_000_000
  /** The longest time between lookup and decision that no sweep can make visible. */
  const SAFE: nat := 540_000_000_001

  // ---- one bucket ----

  datatype Bucket = Bucket(level: int, last: nat)

  function Cap(rpm: nat): int {
    rpm * COST
  }

  function Full(rpm: nat): Bucket {
    Bucket(Cap(rpm), 0)
  }

  function Level(b: Bucket, rpm: nat, t: nat): int {
    var elapsed := if t > b.last then t - b.last else 0;
    var filled := b.level + rpm * elapsed;
    if filled > Cap(rpm) then Cap(rpm) else filled
  }

  /** Taking one token at time t; a refused request leaves the bucket as it was. */
  function Take(b: Bucket, rpm: nat, t: nat): (Bucket, bool) {
    var l := Level(b, rpm, t);
    if l >= COST then (Bucket(l - COST, if t > b.last then t else b.last), true) else (b, false)
  }

  lemma Distribute(r: int, a: int, b: int)
    ensures r * (a + b) == r * a + r * b
  {
  }

  lemma NonNegative(r: nat, a: nat)
    ensures r * a >= 0
  {
  }

  /** Waiting in two stretches fills like waiting once. */
  lemma LevelAdvances(b: Bucket, rpm: nat, t: nat, u: nat)
    requires b.last <= t <= u
    ensures var l := Level(b, rpm, t) + rpm * (u - t);
      Level(b, rpm, u) == if l > Cap(rpm) then Cap(rpm) else l
  {
    Distribute(rpm, t - b.last, u - t);
    NonNegative(rpm, u - t);
    NonNegative(rpm, t - b.last);
    assert (t - b.last) + (u - t) == u - b.last;
  }

  // ---- one client, reference behaviour ----

  predicate Timed(ts: seq<nat>, now: nat) {
    (forall i, j :: 0 <= i <= j < |ts| ==> ts[i] <= ts[j]) && (forall i :: 0 <= i < |ts| ==> ts[i] <= now)
  }

  /** The bucket after requests at the given times, never swept. */
  function After(rpm: nat, ts: seq<nat>): Bucket {
    if ts == [] then Full(rpm) else Take(After(rpm, ts[..|ts| - 1]), rpm, ts[|ts| - 1]).0
  }

  predicate Admits(rpm: nat, past: seq<nat>, t: nat) {
    Take(After(rpm, past), rpm, t).1
  }

  /** How many of the requests from index i on were admitted. */
  function Granted(rpm: nat, ts: seq<nat>, i: nat): nat
    requires i <= |ts|
    decreases |ts|
  {
    if i == |ts| then 0
    else Granted(rpm, ts[..|ts| - 1], i) + (if Admits(rpm, ts[..|ts| - 1], ts[|ts| - 1]) then 1 else 0)
  }

  /** Units left to the client at time t if only the requests from index i on are looked at. */
  function Room(rpm: nat, ts: seq<nat>, i: nat, t: nat): int
    requires i < |ts|
  {
    Cap(rpm) + rpm * (t - ts[i]) - COST * Granted(rpm, ts, i)
  }

  lemma {:induction false} AfterIsPast(rpm: nat, ts: seq<nat>, now: nat)
    requires Timed(ts, now)
    ensures After(rpm, ts).last <= now
  {
    if ts != [] { AfterIsPast(rpm, ts[..|ts| - 1], ts[|ts| - 1]); }
  }

  lemma RoomSteps(rpm: nat, ts: seq<nat>, i: nat, t: nat)
    requires i < |ts| - 1 && Timed(ts, t)
    ensures var n := |ts| - 1;
      Room(rpm, ts, i, t) == Room(rpm, ts[..n], i, ts[n]) + rpm * (t - ts[n])
        - (if Admits(rpm, ts[..n], ts[n]) then COST else 0)
  {
    var n := |ts| - 1;
    Distribute(rpm, ts[n] - ts[i], t - ts[n]);
    assert (ts[n] - ts[i]) + (t - ts[n]) == t - ts[i];
  }

  lemma LevelStep(rpm: nat, ts: seq<nat>, now: nat)
    requires ts != [] && Timed(ts, now)
    ensures var n := |ts| - 1;
      var l := Level(After(rpm, ts[..n]), rpm, ts[n]) - (if Admits(rpm, ts[..n], ts[n]) then COST else 0)
        + rpm * (now - ts[n]);
      Level(After(rpm, ts), rpm, now) == if l > Cap(rpm) then Cap(rpm) else l
  {
    var n := |ts| - 1;
    AfterIsPast(rpm, ts[..n], ts[n]);
    LevelAdvances(After(rpm, ts), rpm, ts[n], now);
  }

  /** The level of the bucket is the least room over all windows, or the full capacity. */
  lemma {:induction false} LevelIsLeastRoom(rpm: nat, ts: seq<nat>, now: nat)
    requires Timed(ts, now)
    ensures Level(After(rpm, ts), rpm, now) <= Cap(rpm)
    ensures forall i :: 0 <= i < |ts| ==> Level(After(rpm, ts), rpm, now) <= Room(rpm, ts, i, now)
    ensures Level(After(rpm, ts), rpm, now) == Cap(rpm)
      || exists i :: 0 <= i < |ts| && Level(After(rpm, ts), rpm, now) == Room(rpm, ts, i, now)
    decreases |ts|
  {
    if ts != [] {
      var n := |ts| - 1;
      var was := Level(After(rpm, ts[..n]), rpm, ts[n]);
      LevelIsLeastRoom(rpm, ts[..n], ts[n]);
      LevelStep(rpm, ts, now);
      assert Granted(rpm, ts, n) == if Admits(rpm, ts[..n], ts[n]) then 1 else 0;
      forall i | 0 <= i < |ts|
        ensures Level(After(rpm, ts), rpm, now) <= Room(rpm, ts, i, now)
      {
        if i < n { RoomSteps(rpm, ts, i, now); }
      }
      if was != Cap(rpm) {
        var i :| 0 <= i < n && was == Room(rpm, ts[..n], i, ts[n]);
        RoomSteps(rpm, ts, i, now);
      } else {
        assert Level(After(rpm, ts), rpm, now) == Cap(rpm) || Level(After(rpm, ts), rpm, now) == Room(rpm, ts, n, now);
      }
    } else {
      NonNegative(rpm, now);
    }
  }

  /** The most requests a window of w nanoseconds may hold. */
  function Quota(rpm: nat, w: int): nat {
    rpm + Rounded(rpm * w)
  }

  function Rounded(units: int): nat {
    if units < 0 then 0 else units / COST
  }

  lemma QuotaInUnits(rpm: nat, w: nat, n: nat)
    ensures n <= Quota(rpm, w) <==> n * COST <= Cap(rpm) + rpm * w
  {
    NonNegative(rpm, w);
  }

  /**
   * What the bucket means: a request is admitted exactly when no window that ends with it, opened by
   * any earlier request of the same client, would then hold more than its quota.
   */
  lemma AdmitIff(rpm: nat, past: seq<nat>, t: nat)
    requires Timed(past, t)
    ensures Admits(rpm, past, t) <==>
      rpm >= 1 && forall i :: 0 <= i < |past| ==> Granted(rpm, past, i) + 1 <= Quota(rpm, t - past[i])
  {
    LevelIsLeastRoom(rpm, past, t);
    var l := Level(After(rpm, past), rpm, t);
    forall i | 0 <= i < |past|
      ensures Room(rpm, past, i, t) >= COST <==> Granted(rpm, past, i) + 1 <= Quota(rpm, t - past[i])
    {
      QuotaInUnits(rpm, t - past[i], Granted(rpm, past, i) + 1);
    }
  }

  lemma QuotaGrows(rpm: nat, w: nat, v: nat)
    requires w <= v
    ensures Quota(rpm, w) <= Quota(rpm, v)
  {
    Distribute(rpm, w, v - w);
    NonNegative(rpm, w);
    NonNegative(rpm, v - w);
  }

  /** Every window of any run holds at most its quota. */
  lemma {:induction false} WindowBound(rpm: nat, ts: seq<nat>, i: nat)
    requires ts != [] && Timed(ts, ts[|ts| - 1]) && i < |ts|
    ensures Granted(rpm, ts, i) <= Quota(rpm, ts[|ts| - 1] - ts[i])
    decreases |ts|
  {
    var n := |ts| - 1;
    if Admits(rpm, ts[..n], ts[n]) {
      AdmitIff(rpm, ts[..n], ts[n]);
      if i < n {
        assert ts[..n][i] == ts[i];
      } else {
        NonNegative(rpm, 0);
      }
    } else if i < n {
      WindowBound(rpm, ts[..n], i);
      QuotaGrows(rpm, ts[n - 1] - ts[i], ts[n] - ts[i]);
    }
  }

  /** The bound in plain numbers: beyond rpm, only what flows in at rpm per 60 000 000 000 ns. */
  lemma WindowMeaning(rpm: nat, ts: seq<nat>, i: nat)
    requires ts != [] && Timed(ts, ts[|ts| - 1]) && i < |ts|
    ensures (Granted(rpm, ts, i) - rpm) * 60_000_000_000 <= rpm * (ts[|ts| - 1] - ts[i])
  {
    var w := ts[|ts| - 1] - ts[i];
    WindowBound(rpm, ts, i);
    QuotaInUnits(rpm, w, Granted(rpm, ts, i));
  }

  /** A full burst at time t0, then everything that flowed in during w. */
  function Bursts(rpm: nat, t0: nat, w: nat, n: nat): seq<nat> {
    seq(n, j => if j < rpm then t0 else t0 + w)
  }

  lemma {:induction false} BurstsAllGranted(rpm: nat, t0: nat, w: nat, n: nat, i: nat)
    requires w <= COST && i <= n <= Quota(rpm, w)
    ensures Granted(rpm, Bursts(rpm, t0, w, n), i) == n - i
    decreases n
  {
    if i < n {
      var past, t := Bursts(rpm, t0, w, n - 1), if n - 1 < rpm then t0 else t0 + w;
      var all := Bursts(rpm, t0, w, n);
      assert all[..n - 1] == past && all[n - 1] == t;
      NonNegative(rpm, w);
      MinuteQuota(rpm, w);
      forall k | 0 <= k < n - 1
        ensures Granted(rpm, past, k) + 1 <= Quota(rpm, t - past[k])
      {
        BurstsAllGranted(rpm, t0, w, n - 1, k);
      }
      assert Timed(past, t);
      AdmitIff(rpm, past, t);
      BurstsAllGranted(rpm, t0, w, n - 1, i);
    }
  }

  lemma MinuteQuota(rpm: nat, w: nat)
    requires w <= COST
    ensures rpm <= Quota(rpm, w) <= 2 * rpm
  {
    NonNegative(rpm, w);
    Distribute(rpm, w, COST - w);
    NonNegative(rpm, COST - w);
  }

  /** In a minute at most twice the configured number. */
  lemma TwicePerMinute(rpm: nat, ts: seq<nat>, i: nat)
    requires ts != [] && Timed(ts, ts[|ts| - 1]) && i < |ts| && ts[|ts| - 1] - ts[i] <= COST
    ensures Granted(rpm, ts, i) <= 2 * rpm
  {
    WindowBound(rpm, ts, i);
    MinuteQuota(rpm, ts[|ts| - 1] - ts[i]);
  }

  /** At every rate some minute reaches that. */
  lemma TwicePerMinuteIsReached(rpm: nat)
    ensures Timed(Bursts(rpm, 0, COST, 2 * rpm), COST)
    ensures Granted(rpm, Bursts(rpm, 0, COST, 2 * rpm), 0) == 2 * rpm
  {
    BurstsAllGranted(rpm, 0, COST, 2 * rpm, 0);
  }

  ghost predicate NeverMoreThan(rpm: nat, w: nat) {
    forall ts, i :: ts != [] && Timed(ts, ts[|ts| - 1]) && 0 <= i < |ts| && ts[|ts| - 1] - ts[i] <= w
      ==> Granted(rpm, ts, i) <= rpm
  }

  /** "At most rpm requests in any window of w" is true exactly while w is too short to refill one token. */
  lemma SlidingWindowClaimIff(rpm: nat, w: nat)
    ensures NeverMoreThan(rpm, w) <==> rpm * w < COST
  {
    NonNegative(rpm, w);
    if rpm * w < COST {
      forall ts, i | ts != [] && Timed(ts, ts[|ts| - 1]) && 0 <= i < |ts| && ts[|ts| - 1] - ts[i] <= w
        ensures Granted(rpm, ts, i) <= rpm
      {
        WindowBound(rpm, ts, i);
        QuotaGrows(rpm, ts[|ts| - 1] - ts[i], w);
      }
    } else {
      var v := if w <= COST then w else COST;
      var ts := Bursts(rpm, 0, v, rpm + 1);
      NonNegative(rpm, v);
      assert rpm * v >= COST by { if w > COST { PositiveRate(rpm, w); } }
      BurstsAllGranted(rpm, 0, v, rpm + 1, 0);
      assert Timed(ts, ts[|ts| - 1]) && ts[|ts| - 1] - ts[0] <= w;
    }
  }

  lemma PositiveRate(rpm: nat, w: nat)
    requires rpm * w >= COST
    ensures rpm * COST >= COST
  {
  }

  // ---- who shares a bucket ----

  datatype Client = User(id: Uuid) | Address(host: string)

  function ClientKey(c: Client): string {
    match c
    case User(id) => "u:" + UuidText(id)
    case Address(host) => "ip:" + host
  }

  /** Different clients never share a bucket, signed in or not. */
  lemma ClientKeysDistinct(a: Client, b: Client)
    ensures ClientKey(a) == ClientKey(b) <==> a == b
  {
    if ClientKey(a) == ClientKey(b) {
      assert ClientKey(a)[0] == ClientKey(b)[0];
      if a.User? {
        CutInjective("u:", UuidText(a.id), "u:", UuidText(b.id));
        UuidTextInjective(a.id, b.id);
      } else {
        CutInjective("ip:", a.host, "ip:", b.host);
      }
    }
  }

  // ---- the map of buckets, with sweeps ----

  datatype Slot<P> = Slot(limiter: P, lastSeen: nat)

  function Swept<P>(limiters: map<string, Slot<P>>, now: nat): map<string, Slot<P>> {
    map k | k in limiters && now - limiters[k].lastSeen <= IDLE :: limiters[k]
  }

  class TokenBucket {
    const rpm: nat
    var state: Bucket

    constructor (rpm: nat)
      ensures this.rpm == rpm && state == Full(rpm)
    {
      this.rpm := rpm;
      state := Full(rpm);
    }

    method Allow(now: nat) returns (ok: bool)
      modifies this
      ensures (state, ok) == Take(old(state), rpm, now)
    {
      var tokens := Level(state, rpm, now) - COST;
      ok := tokens >= 0;
      if ok {
        state := Bucket(tokens, if now > state.last then now else state.last);
      }
    }
  }

  /** The bucket of an entry seen at the given time stands at time now where the never-swept one would. */
  ghost predicate Tracks(b: Bucket, seen: nat, rpm: nat, past: seq<nat>, now: nat) {
    b.level >= 0 && b.last <= seen <= now && Level(b, rpm, now) == Level(After(rpm, past), rpm, now)
  }

  function Past(log: map<string, seq<nat>>, key: string): seq<nat> {
    if key in log then log[key] else []
  }

  lemma TracksLater(b: Bucket, seen: nat, rpm: nat, past: seq<nat>, t: nat, u: nat)
    requires Timed(past, t) && t <= u && Tracks(b, seen, rpm, past, t)
    ensures Tracks(b, seen, rpm, past, u)
  {
    AfterIsPast(rpm, past, t);
    LevelAdvances(b, rpm, t, u);
    LevelAdvances(After(rpm, past), rpm, t, u);
  }

  lemma FullLater(rpm: nat, past: seq<nat>, t: nat, u: nat)
    requires Timed(past, t) && t <= u && Level(After(rpm, past), rpm, t) == Cap(rpm)
    ensures Level(After(rpm, past), rpm, u) == Cap(rpm)
  {
    AfterIsPast(rpm, past, t);
    LevelAdvances(After(rpm, past), rpm, t, u);
    NonNegative(rpm, u - t);
  }

  /** Asking the bucket gives the answer of the client's own past, and the bucket still tracks it. */
  lemma TracksTake(b: Bucket, seen: nat, rpm: nat, past: seq<nat>, now: nat)
    requires Timed(past, now) && Tracks(b, seen, rpm, past, now)
    ensures Take(b, rpm, now).1 == Admits(rpm, past, now)
    ensures Tracks(Take(b, rpm, now).0, now, rpm, past + [now], now)
  {
    AfterIsPast(rpm, past, now);
    TakeAgrees(b, After(rpm, past), rpm, now);
    assert (past + [now])[..|past|] == past;
  }

  lemma NewBucketTracks(rpm: nat, past: seq<nat>, now: nat)
    requires Level(After(rpm, past), rpm, now) == Cap(rpm)
    ensures Tracks(Full(rpm), now, rpm, past, now)
  {
    NonNegative(rpm, now);
  }

  /** The entry of the key, or its absence, agrees with the client's past. */
  ghost predicate KeyTracks(rpm: nat, entries: map<string, Slot<Bucket>>, past: seq<nat>, key: string, now: nat) {
    && Timed(past, now)
    && (key in entries ==> Tracks(entries[key].limiter, entries[key].lastSeen, rpm, past, now))
    && (key !in entries ==> Level(After(rpm, past), rpm, now) == Cap(rpm))
  }

  ghost predicate AllTrack(rpm: nat, entries: map<string, Slot<Bucket>>, past: map<string, seq<nat>>, now: nat) {
    forall key :: KeyTracks(rpm, entries, Past(past, key), key, now)
  }

  lemma AllTrackLater(rpm: nat, entries: map<string, Slot<Bucket>>, past: map<string, seq<nat>>, t: nat, u: nat)
    requires AllTrack(rpm, entries, past, t) && t <= u
    ensures AllTrack(rpm, entries, past, u)
  {
    forall key
      ensures KeyTracks(rpm, entries, Past(past, key), key, u)
    {
      assert KeyTracks(rpm, entries, Past(past, key), key, t);
      if key in entries {
        TracksLater(entries[key].limiter, entries[key].lastSeen, rpm, Past(past, key), t, u);
      } else {
        FullLater(rpm, Past(past, key), t, u);
      }
    }
  }

  /** Forgetting the entries idle for more than ten minutes loses nothing. */
  lemma SweptTracks(rpm: nat, entries: map<string, Slot<Bucket>>, past: map<string, seq<nat>>, now: nat)
    requires AllTrack(rpm, entries, past, now)
    ensures AllTrack(rpm, Swept(entries, now), past, now)
  {
    forall key
      ensures KeyTracks(rpm, Swept(entries, now), Past(past, key), key, now)
    {
      assert KeyTracks(rpm, entries, Past(past, key), key, now);
      if key in entries && now - entries[key].lastSeen > IDLE {
        LongIdleIsFull(entries[key].limiter, rpm, After(rpm, Past(past, key)), now);
      }
    }
  }

  function BucketOf(rpm: nat, entries: map<string, Slot<Bucket>>, key: string): Bucket {
    if key in entries then entries[key].limiter else Full(rpm)
  }

  lemma OwnKeyServed(rpm: nat, entries: map<string, Slot<Bucket>>, past: seq<nat>, key: string, now: nat, left: Bucket, ok: bool)
    requires KeyTracks(rpm, entries, past, key, now) && (left, ok) == Take(BucketOf(rpm, entries, key), rpm, now)
    ensures ok == Admits(rpm, past, now)
    ensures Timed(past + [now], now) && Tracks(left, now, rpm, past + [now], now)
  {
    if key !in entries { NewBucketTracks(rpm, past, now); }
    var seen := if key in entries then entries[key].lastSeen else now;
    TracksTake(BucketOf(rpm, entries, key), seen, rpm, past, now);
    LogGrows(past, now);
  }

  /** A decision is the one the client's own past calls for, and disturbs no other client. */
  lemma ServedTracks(rpm: nat, entries: map<string, Slot<Bucket>>, past: map<string, seq<nat>>, t: nat, key: string, now: nat, left: Bucket, ok: bool)
    requires AllTrack(rpm, entries, past, t) && t <= now && (left, ok) == Take(BucketOf(rpm, entries, key), rpm, now)
    ensures ok == Admits(rpm, Past(past, key), now)
    ensures AllTrack(rpm, entries[key := Slot(left, now)], past[key := Past(past, key) + [now]], now)
  {
    AllTrackLater(rpm, entries, past, t, now);
    var after, past' := entries[key := Slot(left, now)], past[key := Past(past, key) + [now]];
    forall k
      ensures KeyTracks(rpm, after, Past(past', k), k, now)
    {
      assert KeyTracks(rpm, entries, Past(past, k), k, now);
      if k == key { OwnKeyServed(rpm, entries, Past(past, key), key, now, left, ok); }
    }
    assert KeyTracks(rpm, entries, Past(past, key), key, now);
    OwnKeyServed(rpm, entries, Past(past, key), key, now, left, ok);
  }

  /**
   * The limiter the middleware holds. past is what a limiter that never forgets would know: the times of
   * each client's own requests. clock is the time of the last call.
   */
  class RateLimiter {
    const rpm: nat
    var limiters: map<string, Slot<TokenBucket>>
    ghost var past: map<string, seq<nat>>
    ghost var clock: nat

    ghost function Entries(): map<string, Slot<Bucket>>
      reads this`limiters, set k | k in limiters :: limiters[k].limiter
    {
      map k | k in limiters :: Slot(limiters[k].limiter.state, limiters[k].lastSeen)
    }

    /** Every key has a bucket of its own. */
    ghost predicate Apart()
      reads this`limiters, set k | k in limiters :: limiters[k].limiter
    {
      && (forall k :: k in limiters ==> limiters[k].limiter.rpm == rpm)
      && (forall j, k :: j in limiters && k in limiters && limiters[j].limiter == limiters[k].limiter ==> j == k)
    }

    ghost predicate Valid()
      reads this, set k | k in limiters :: limiters[k].limiter
    {
      Apart() && AllTrack(rpm, Entries(), past, clock)
    }

    constructor (rpm: nat)
      ensures Valid() && this.rpm == rpm && limiters == map[] && past == map[] && clock == 0
    {
      this.rpm := rpm;
      limiters, past, clock := map[], map[], 0;
      new;
      NonNegative(rpm, 0);
    }

    method GetLimiter(key: string, now: nat) returns (b: TokenBucket)
      requires Apart()
      modifies this`limiters
      ensures Apart()
      ensures key in old(limiters) ==> b == old(limiters)[key].limiter
      ensures key !in old(limiters) ==> fresh(b)
      ensures b.rpm == rpm && b.state == BucketOf(rpm, old(Entries()), key)
      ensures limiters == old(limiters)[key := Slot(b, now)]
    {
      if key in limiters {
        b := limiters[key].limiter;
      } else {
        b := new TokenBucket(rpm);
      }
      limiters := limiters[key := Slot(b, now)];
    }

    /** Removing the idle entries keeps the map tied to every client's whole past. */
    method Cleanup(now: nat)
      requires Valid() && clock <= now
      modifies this
      ensures Valid() && clock == now && past == old(past)
      ensures limiters == Swept(old(limiters), now)
    {
      AllTrackLater(rpm, Entries(), past, clock, now);
      SweptTracks(rpm, Entries(), past, now);
      clock := now;
      RemoveIdle(now);
    }

    method RemoveIdle(now: nat)
      requires Apart()
      modifies this`limiters
      ensures Apart() && limiters == Swept(old(limiters), now)
      ensures forall k :: k in limiters <==> k in old(limiters) && now - old(limiters)[k].lastSeen <= 600_000_000_000
      ensures Entries() == Swept(old(Entries()), now)
    {
      var todo := limiters.Keys;
      while todo != {}
        invariant todo <= old(limiters).Keys
        invariant limiters == map k | k in old(limiters) && (k in todo || now - old(limiters)[k].lastSeen <= IDLE) :: old(limiters)[k]
        decreases |todo|
      {
        var key :| key in todo;
        if now - limiters[key].lastSeen > IDLE {
          limiters := limiters - {key};
        }
        todo := todo - {key};
      }
    }

    /** A request handled at one instant is decided by the client's own past alone, swept or not. */
    method Serve(client: Client, now: nat) returns (ok: bool)
      requires Valid() && clock <= now
      modifies this, set k | k in limiters :: limiters[k].limiter
      ensures Valid() && clock == now
      ensures var key := ClientKey(client);
        && ok == Admits(rpm, Past(old(past), key), now)
        && past == old(past)[key := Past(old(past), key) + [now]]
    {
      var key := ClientKey(client);
      ghost var before := Entries();
      ok := ServeKey(key, now);
      ghost var left := limiters[key].limiter.state;
      ServedTracks(rpm, before, past, clock, key, now, left, ok);
      clock, past := now, past[key := Past(past, key) + [now]];
    }

    method ServeKey(key: string, now: nat) returns (ok: bool)
      requires Apart()
      modifies this`limiters, set k | k in limiters :: limiters[k].limiter
      ensures Apart() && key in limiters && limiters == old(limiters)[key := Slot(limiters[key].limiter, now)]
      ensures (limiters[key].limiter.state, ok) == Take(BucketOf(rpm, old(Entries()), key), rpm, now)
      ensures Entries() == old(Entries())[key := Slot(limiters[key].limiter.state, now)]
    {
      ok := LookupAndAllow(key, now);
    }

    /** One token from the bucket of the key; every other bucket stays as it is. */
    method LookupAndAllow(key: string, now: nat) returns (ok: bool)
      requires Apart()
      modifies this`limiters, set k | k in limiters :: limiters[k].limiter
      ensures Apart() && key in limiters && limiters == old(limiters)[key := Slot(limiters[key].limiter, now)]
      ensures (limiters[key].limiter.state, ok) == Take(BucketOf(rpm, old(Entries()), key), rpm, now)
      ensures forall k :: k in old(limiters) && k != key ==> limiters[k].limiter.state == old(limiters[k].limiter.state)
    {
      var b := GetLimiter(key, now);
      ok := b.Allow(now);
    }
  }

  // ---- every interleaving of lookups, decisions and sweeps ----

  /** A request that has looked up its bucket and not yet asked it. */
  datatype Flight = Flight(key: string, limiter: nat, at: nat)

  datatype Server = Server(now: nat, heap: seq<Bucket>, limiters: map<string, Slot<nat>>, flights: map<nat, Flight>)

  datatype Event = Tick(d: nat) | Lookup(req: nat, key: string) | Decide(req: nat) | Sweep

  const START := Server(0, [], map[], map[])

  predicate Possible(s: Server, e: Event) {
    match e
    case Tick(d) => true
    case Lookup(r, key) => r !in s.flights
    case Decide(r) => r in s.flights && s.flights[r].limiter < |s.heap|
    case Sweep => true
  }

  /** Requests are answered within the given time of their lookup. */
  predicate Prompt(s: Server, grace: nat, e: Event) {
    Possible(s, e) && (e.Tick? ==> forall r :: r in s.flights ==> s.now + e.d <= s.flights[r].at + grace)
  }

  function Next(s: Server, rpm: nat, e: Event): Server
    requires Possible(s, e)
  {
    match e
    case Tick(d) => s.(now := s.now + d)
    case Lookup(r, key) =>
      if key in s.limiters then
        var p := s.limiters[key].limiter;
        s.(limiters := s.limiters[key := Slot(p, s.now)], flights := s.flights[r := Flight(key, p, s.now)])
      else
        var p := |s.heap|;
        s.(heap := s.heap + [Full(rpm)], limiters := s.limiters[key := Slot(p, s.now)],
          flights := s.flights[r := Flight(key, p, s.now)])
    case Decide(r) =>
      var p := s.flights[r].limiter;
      s.(heap := s.heap[p := Take(s.heap[p], rpm, s.now).0], flights := s.flights - {r})
    case Sweep => s.(limiters := Swept(s.limiters, s.now))
  }

  function Answer(s: Server, rpm: nat, e: Event): Option<bool>
    requires Possible(s, e)
  {
    if e.Decide? then Some(Take(s.heap[s.flights[e.req].limiter], rpm, s.now).1) else None
  }

  predicate AllPrompt(s: Server, rpm: nat, grace: nat, es: seq<Event>)
    decreases |es|
  {
    es == [] || (Prompt(s, grace, es[0]) && AllPrompt(Next(s, rpm, es[0]), rpm, grace, es[1..]))
  }

  predicate AllPossible(s: Server, rpm: nat, es: seq<Event>)
    decreases |es|
  {
    es == [] || (Possible(s, es[0]) && AllPossible(Next(s, rpm, es[0]), rpm, es[1..]))
  }

  function Answers(s: Server, rpm: nat, es: seq<Event>): seq<Option<bool>>
    requires AllPossible(s, rpm, es)
    decreases |es|
  {
    if es == [] then [] else [Answer(s, rpm, es[0])] + Answers(Next(s, rpm, es[0]), rpm, es[1..])
  }

  /** The reference: no buckets and no sweeps, only the times of each client's own decided requests. */
  datatype Ledger = Ledger(now: nat, log: map<string, seq<nat>>, flights: map<nat, string>)

  const EMPTY := Ledger(0, map[], map[])

  function Log(l: Ledger, key: string): seq<nat> {
    Past(l.log, key)
  }

  function LedgerNext(l: Ledger, e: Event): Ledger {
    match e
    case Tick(d) => l.(now := l.now + d)
    case Lookup(r, key) => l.(flights := l.flights[r := key])
    case Decide(r) =>
      if r in l.flights then
        l.(log := l.log[l.flights[r] := Log(l, l.flights[r]) + [l.now]], flights := l.flights - {r})
      else l
    case Sweep => l
  }

  function LedgerAnswer(l: Ledger, rpm: nat, e: Event): Option<bool> {
    if e.Decide? && e.req in l.flights then Some(Admits(rpm, Log(l, l.flights[e.req]), l.now)) else None
  }

  function LedgerAnswers(l: Ledger, rpm: nat, es: seq<Event>): seq<Option<bool>>
    decreases |es|
  {
    if es == [] then [] else [LedgerAnswer(l, rpm, es[0])] + LedgerAnswers(LedgerNext(l, es[0]), rpm, es[1..])
  }

  /** The bucket of an entry behaves from now on like the never-swept one. */
  ghost predicate Faithful(s: Server, rpm: nat, l: Ledger, key: string) {
    && Timed(Log(l, key), s.now)
    && (if key in s.limiters then
      var slot := s.limiters[key];
      && slot.limiter < |s.heap| && slot.lastSeen <= s.now && s.heap[slot.limiter].level >= 0
      && s.heap[slot.limiter].last <= s.now && s.heap[slot.limiter].last <= slot.lastSeen + SAFE
      && Level(s.heap[slot.limiter], rpm, s.now) == Level(After(rpm, Log(l, key)), rpm, s.now)
    else Level(After(rpm, Log(l, key)), rpm, s.now) == Cap(rpm))
  }

  ghost predicate FlightOk(s: Server, l: Ledger, r: nat)
    requires r in s.flights
  {
    var f := s.flights[r];
    && r in l.flights && l.flights[r] == f.key && f.key in s.limiters
    && s.limiters[f.key].limiter == f.limiter && f.at <= s.limiters[f.key].lastSeen && s.now <= f.at + SAFE
  }

  ghost predicate Related(s: Server, rpm: nat, l: Ledger) {
    && s.now == l.now && s.flights.Keys == l.flights.Keys
    && (forall key :: Faithful(s, rpm, l, key))
    && (forall r :: r in s.flights ==> FlightOk(s, l, r))
    && (forall j, k :: j in s.limiters && k in s.limiters && s.limiters[j].limiter == s.limiters[k].limiter ==> j == k)
  }

  lemma TickRelated(s: Server, rpm: nat, l: Ledger, d: nat)
    requires Related(s, rpm, l) && Prompt(s, SAFE, Tick(d))
    ensures Related(Next(s, rpm, Tick(d)), rpm, LedgerNext(l, Tick(d)))
  {
    var s', l' := Next(s, rpm, Tick(d)), LedgerNext(l, Tick(d));
    forall key
      ensures Faithful(s', rpm, l', key)
    {
      assert Faithful(s, rpm, l, key) && Log(l', key) == Log(l, key);
      AfterIsPast(rpm, Log(l, key), s.now);
      LevelAdvances(After(rpm, Log(l, key)), rpm, s.now, s.now + d);
      NonNegative(rpm, d);
      if key in s.limiters {
        LevelAdvances(s.heap[s.limiters[key].limiter], rpm, s.now, s.now + d);
      }
    }
    forall r | r in s'.flights
      ensures FlightOk(s', l', r)
    {
      assert FlightOk(s, l, r);
    }
  }

  lemma LookupFaithful(s: Server, rpm: nat, l: Ledger, r: nat, key: string, k: string)
    requires Related(s, rpm, l) && Prompt(s, SAFE, Lookup(r, key))
    ensures Faithful(Next(s, rpm, Lookup(r, key)), rpm, LedgerNext(l, Lookup(r, key)), k)
  {
    var s', l' := Next(s, rpm, Lookup(r, key)), LedgerNext(l, Lookup(r, key));
    assert Faithful(s, rpm, l, k) && Log(l', k) == Log(l, k);
    NonNegative(rpm, s.now);
    if k in s.limiters {
      assert s'.heap[s.limiters[k].limiter] == s.heap[s.limiters[k].limiter];
    }
  }

  lemma LookupFlight(s: Server, rpm: nat, l: Ledger, r: nat, key: string, q: nat)
    requires Related(s, rpm, l) && Prompt(s, SAFE, Lookup(r, key))
    requires q in Next(s, rpm, Lookup(r, key)).flights
    ensures FlightOk(Next(s, rpm, Lookup(r, key)), LedgerNext(l, Lookup(r, key)), q)
  {
    assert q != r ==> FlightOk(s, l, q);
    assert Faithful(s, rpm, l, key);
  }

  lemma LookupRelated(s: Server, rpm: nat, l: Ledger, r: nat, key: string)
    requires Related(s, rpm, l) && Prompt(s, SAFE, Lookup(r, key))
    ensures Related(Next(s, rpm, Lookup(r, key)), rpm, LedgerNext(l, Lookup(r, key)))
  {
    var s', l' := Next(s, rpm, Lookup(r, key)), LedgerNext(l, Lookup(r, key));
    forall k
      ensures Faithful(s', rpm, l', k)
    {
      LookupFaithful(s, rpm, l, r, key, k);
    }
    forall q | q in s'.flights
      ensures FlightOk(s', l', q)
    {
      LookupFlight(s, rpm, l, r, key, q);
    }
    forall j, k | j in s'.limiters && k in s'.limiters && s'.limiters[j].limiter == s'.limiters[k].limiter
      ensures j == k
    {
      assert Faithful(s, rpm, l, j) && Faithful(s, rpm, l, k);
    }
  }

  /** Buckets with the same level answer alike and stay level. */
  lemma TakeAgrees(b: Bucket, c: Bucket, rpm: nat, now: nat)
    requires b.last <= now && c.last <= now && b.level >= 0 && Level(b, rpm, now) == Level(c, rpm, now)
    ensures var x, y := Take(b, rpm, now), Take(c, rpm, now);
      x.1 == y.1 && Level(x.0, rpm, now) == Level(y.0, rpm, now)
      && x.0.level >= 0 && x.0.last <= now && y.0.last <= now
  {
    NonNegative(rpm, 0);
  }

  lemma DecideOwnKey(s: Server, rpm: nat, l: Ledger, r: nat)
    requires Related(s, rpm, l) && Prompt(s, SAFE, Decide(r))
    ensures Faithful(Next(s, rpm, Decide(r)), rpm, LedgerNext(l, Decide(r)), s.flights[r].key)
    ensures Answer(s, rpm, Decide(r)) == LedgerAnswer(l, rpm, Decide(r))
  {
    var l' := LedgerNext(l, Decide(r));
    var key := s.flights[r].key;
    assert FlightOk(s, l, r) && Faithful(s, rpm, l, key);
    var log := Log(l, key);
    assert Log(l', key) == log + [s.now] && (log + [s.now])[..|log|] == log;
    TracksTake(s.heap[s.flights[r].limiter], s.now, rpm, log, s.now);
    LogGrows(log, s.now);
  }

  lemma LogGrows(log: seq<nat>, now: nat)
    requires Timed(log, now)
    ensures Timed(log + [now], now)
  {
  }

  lemma DecideOtherKey(s: Server, rpm: nat, l: Ledger, r: nat, k: string)
    requires Related(s, rpm, l) && Prompt(s, SAFE, Decide(r)) && k != s.flights[r].key
    ensures Faithful(Next(s, rpm, Decide(r)), rpm, LedgerNext(l, Decide(r)), k)
  {
    assert FlightOk(s, l, r) && Faithful(s, rpm, l, k);
    assert Log(LedgerNext(l, Decide(r)), k) == Log(l, k);
  }

  lemma DecideRelated(s: Server, rpm: nat, l: Ledger, r: nat)
    requires Related(s, rpm, l) && Prompt(s, SAFE, Decide(r))
    ensures Related(Next(s, rpm, Decide(r)), rpm, LedgerNext(l, Decide(r)))
    ensures Answer(s, rpm, Decide(r)) == LedgerAnswer(l, rpm, Decide(r))
  {
    var s', l' := Next(s, rpm, Decide(r)), LedgerNext(l, Decide(r));
    DecideOwnKey(s, rpm, l, r);
    forall k
      ensures Faithful(s', rpm, l', k)
    {
      if k != s.flights[r].key { DecideOtherKey(s, rpm, l, r, k); }
    }
    forall q | q in s'.flights
      ensures FlightOk(s', l', q)
    {
      assert FlightOk(s, l, q);
    }
    assert FlightOk(s, l, r);
  }

  /** A bucket idle for over ten minutes is full, and nobody holds it. */
  lemma SweepRelated(s: Server, rpm: nat, l: Ledger)
    requires Related(s, rpm, l)
    ensures Related(Next(s, rpm, Sweep), rpm, LedgerNext(l, Sweep))
  {
    var s' := Next(s, rpm, Sweep);
    forall key
      ensures Faithful(s', rpm, l, key)
    {
      assert Faithful(s, rpm, l, key);
      if key in s.limiters && key !in s'.limiters {
        LongIdleIsFull(s.heap[s.limiters[key].limiter], rpm, After(rpm, Log(l, key)), s.now);
      }
    }
    forall r | r in s'.flights
      ensures FlightOk(s', l, r)
    {
      assert FlightOk(s, l, r);
    }
  }

  lemma LongIdleIsFull(b: Bucket, rpm: nat, reference: Bucket, now: nat)
    requires b.last + COST <= now && b.level >= 0 && Level(b, rpm, now) == Level(reference, rpm, now)
    ensures Level(reference, rpm, now) == Cap(rpm)
  {
    Distribute(rpm, COST, now - b.last - COST);
    NonNegative(rpm, now - b.last - COST);
  }

  lemma StepRelated(s: Server, rpm: nat, l: Ledger, e: Event)
    requires Related(s, rpm, l) && Prompt(s, SAFE, e)
    ensures Related(Next(s, rpm, e), rpm, LedgerNext(l, e))
    ensures Answer(s, rpm, e) == LedgerAnswer(l, rpm, e)
  {
    match e {
      case Tick(d) => TickRelated(s, rpm, l, d);
      case Lookup(r, key) => LookupRelated(s, rpm, l, r, key);
      case Decide(r) => DecideRelated(s, rpm, l, r);
      case Sweep => SweepRelated(s, rpm, l);
    }
  }

  /** With prompt requests, sweeping is unobservable: every answer is the one of the client's own ledger. */
  lemma {:induction false} SweepsAreUnobservable(s: Server, rpm: nat, l: Ledger, es: seq<Event>)
    requires Related(s, rpm, l) && AllPrompt(s, rpm, SAFE, es)
    ensures AllPossible(s, rpm, es) && Answers(s, rpm, es) == LedgerAnswers(l, rpm, es)
    decreases |es|
  {
    if es != [] {
      StepRelated(s, rpm, l, es[0]);
      SweepsAreUnobservable(Next(s, rpm, es[0]), rpm, LedgerNext(l, es[0]), es[1..]);
    }
  }

  lemma StartRelated(rpm: nat)
    ensures Related(START, rpm, EMPTY)
  {
    NonNegative(rpm, 0);
  }

  lemma {:induction false} PromptLonger(s: Server, rpm: nat, g: nat, h: nat, es: seq<Event>)
    requires g <= h && AllPrompt(s, rpm, g, es)
    ensures AllPrompt(s, rpm, h, es)
    decreases |es|
  {
    if es != [] { PromptLonger(Next(s, rpm, es[0]), rpm, g, h, es[1..]); }
  }

  // ---- from one pair of states to another ----

  /** These events, each decision within grace of its lookup, lead the server from s to v and the ledger from l to m. */
  ghost predicate Leads(s: Server, l: Ledger, rpm: nat, grace: nat, es: seq<Event>, v: Server, m: Ledger)
    decreases |es|
  {
    if es == [] then s == v && l == m
    else Prompt(s, grace, es[0]) && Leads(Next(s, rpm, es[0]), LedgerNext(l, es[0]), rpm, grace, es[1..], v, m)
  }

  lemma {:induction false} LeadsRelated(s: Server, l: Ledger, rpm: nat, es: seq<Event>, v: Server, m: Ledger)
    requires Leads(s, l, rpm, SAFE, es, v, m) && Related(s, rpm, l)
    ensures Related(v, rpm, m)
    decreases |es|
  {
    if es != [] {
      StepRelated(s, rpm, l, es[0]);
      LeadsRelated(Next(s, rpm, es[0]), LedgerNext(l, es[0]), rpm, es[1..], v, m);
    }
  }

  lemma {:induction false} LeadsThen(s: Server, l: Ledger, rpm: nat, grace: nat, a: seq<Event>, v: Server, m: Ledger, b: seq<Event>, x: Server, n: Ledger)
    requires Leads(s, l, rpm, grace, a, v, m) && Leads(v, m, rpm, grace, b, x, n)
    ensures Leads(s, l, rpm, grace, a + b, x, n)
    decreases |a|
  {
    if a == [] {
      assert a + b == b;
    } else {
      assert (a + b)[1..] == a[1..] + b;
      LeadsThen(Next(s, rpm, a[0]), LedgerNext(l, a[0]), rpm, grace, a[1..], v, m, b, x, n);
    }
  }

  lemma LeadsOnce(s: Server, l: Ledger, rpm: nat, grace: nat, e: Event)
    requires Prompt(s, grace, e)
    ensures Leads(s, l, rpm, grace, [e], Next(s, rpm, e), LedgerNext(l, e))
  {
    assert [e][1..] == [];
  }

  /** The last answers of a run are those of the states it leads to. */
  lemma {:induction false} LastAnswers(s: Server, l: Ledger, rpm: nat, grace: nat, es: seq<Event>, v: Server, m: Ledger, e: Event)
    requires Leads(s, l, rpm, grace, es, v, m) && Prompt(v, grace, e)
    ensures AllPrompt(s, rpm, grace, es + [e]) && AllPossible(s, rpm, es + [e])
    ensures |Answers(s, rpm, es + [e])| == |LedgerAnswers(l, rpm, es + [e])| == |es| + 1
    ensures Answers(s, rpm, es + [e])[|es|] == Answer(v, rpm, e)
    ensures LedgerAnswers(l, rpm, es + [e])[|es|] == LedgerAnswer(m, rpm, e)
    decreases |es|
  {
    if es == [] {
      assert es + [e] == [e] && [e][1..] == [];
    } else {
      assert (es + [e])[1..] == es[1..] + [e];
      LastAnswers(Next(s, rpm, es[0]), LedgerNext(l, es[0]), rpm, grace, es[1..], v, m, e);
    }
  }

  /**
   * What a decision means, after any run with any sweeps: it looks only at the client's own earlier requests,
   * and at all of them.
   */
  lemma DecisionMeaning(rpm: nat, es: seq<Event>, s: Server, l: Ledger, r: nat)
    requires Leads(START, EMPTY, rpm, SAFE, es, s, l) && Possible(s, Decide(r))
    ensures var own := Log(l, s.flights[r].key);
      Answer(s, rpm, Decide(r)) == Some(true) <==>
        rpm >= 1 && forall i :: 0 <= i < |own| ==> Granted(rpm, own, i) + 1 <= Quota(rpm, s.now - own[i])
  {
    StartRelated(rpm);
    LeadsRelated(START, EMPTY, rpm, es, s, l);
    DecisionOfRelated(s, rpm, l, r);
  }

  lemma DecisionOfRelated(s: Server, rpm: nat, l: Ledger, r: nat)
    requires Related(s, rpm, l) && Possible(s, Decide(r))
    ensures var own := Log(l, s.flights[r].key);
      Answer(s, rpm, Decide(r)) == Some(true) <==>
        rpm >= 1 && forall i :: 0 <= i < |own| ==> Granted(rpm, own, i) + 1 <= Quota(rpm, s.now - own[i])
  {
    assert FlightOk(s, l, r) && Faithful(s, rpm, l, s.flights[r].key);
    DecideOwnKey(s, rpm, l, r);
    AdmitIff(rpm, Log(l, s.flights[r].key), s.now);
  }

  // ---- a stall that a sweep makes visible ----

  function Lookups(key: string, from: nat, n: nat): seq<Event> {
    if n == 0 then [] else Lookups(key, from, n - 1) + [Lookup(from + n - 1, key)]
  }

  /** The last k of n waiting requests are decided, the youngest first. */
  function Decides(from: nat, n: nat, k: nat): seq<Event>
    requires k <= n
  {
    if k == 0 then [] else Decides(from, n, k - 1) + [Decide(from + n - k)]
  }

  function Flights(f: Flight, from: nat, n: nat): (m: map<nat, Flight>)
    ensures forall i :: i in m ==> from <= i < from + n && m[i] == f
  {
    if n == 0 then map[] else Flights(f, from, n - 1)[from + n - 1 := f]
  }

  function Keys(key: string, from: nat, n: nat): (m: map<nat, string>)
    ensures forall i :: i in m ==> from <= i < from + n && m[i] == key
  {
    if n == 0 then map[] else Keys(key, from, n - 1)[from + n - 1 := key]
  }

  lemma LastFlight(f: Flight, from: nat, n: nat)
    requires n > 0
    ensures from + n - 1 in Flights(f, from, n) && Flights(f, from, n)[from + n - 1] == f
    ensures Flights(f, from, n) - {from + n - 1} == Flights(f, from, n - 1)
    ensures from + n - 1 in Keys(f.key, from, n) && Keys(f.key, from, n)[from + n - 1] == f.key
    ensures Keys(f.key, from, n) - {from + n - 1} == Keys(f.key, from, n - 1)
  {
    var t, m := Flights(f, from, n - 1), Keys(f.key, from, n - 1);
    assert from + n - 1 !in t && from + n - 1 !in m;
  }

  /** n requests of one client have looked up a new bucket and wait. */
  function Waiting(s: Server, rpm: nat, key: string, from: nat, n: nat): Server {
    if n == 0 then s
    else Server(s.now, s.heap + [Full(rpm)], map[key := Slot(|s.heap|, s.now)], Flights(Flight(key, |s.heap|, s.now), from, n))
  }

  lemma {:induction false} AllLookUp(s: Server, l: Ledger, rpm: nat, grace: nat, key: string, from: nat, n: nat)
    requires s.limiters == map[] && s.flights == map[] && l.flights == map[]
    ensures Leads(s, l, rpm, grace, Lookups(key, from, n), Waiting(s, rpm, key, from, n), l.(flights := Keys(key, from, n)))
  {
    if n > 0 {
      var v, m := Waiting(s, rpm, key, from, n - 1), l.(flights := Keys(key, from, n - 1));
      AllLookUp(s, l, rpm, grace, key, from, n - 1);
      OneLooksUp(s, rpm, key, from, n);
      LeadsOnce(v, m, rpm, grace, Lookup(from + n - 1, key));
      LeadsThen(s, l, rpm, grace, Lookups(key, from, n - 1), v, m, [Lookup(from + n - 1, key)],
        Waiting(s, rpm, key, from, n), l.(flights := Keys(key, from, n)));
    }
  }

  lemma OneLooksUp(s: Server, rpm: nat, key: string, from: nat, n: nat)
    requires s.limiters == map[] && s.flights == map[] && n > 0
    ensures var v, e := Waiting(s, rpm, key, from, n - 1), Lookup(from + n - 1, key);
      Possible(v, e) && Next(v, rpm, e) == Waiting(s, rpm, key, from, n)
  {
    var v, e := Waiting(s, rpm, key, from, n - 1), Lookup(from + n - 1, key);
    var f := Flight(key, |s.heap|, s.now);
    if n == 1 { assert Flights(f, from, 1) == Flights(f, from, 0)[from := f]; }
  }

  function Repeated(t: nat, n: nat): seq<nat> {
    seq(n, _ => t)
  }

  /** k of n requests waiting for bucket p, which was full, have been decided at one moment. */
  function Decided(s: Server, rpm: nat, f: Flight, from: nat, n: nat, k: nat): Server
    requires f.limiter < |s.heap| && k <= n
  {
    if k == 0 then s
    else s.(heap := s.heap[f.limiter := Bucket(Cap(rpm) - k * COST, s.now)], flights := Flights(f, from, n - k))
  }

  function Logged(l: Ledger, key: string, from: nat, n: nat, k: nat): Ledger
    requires k <= n
  {
    if k == 0 then l
    else l.(log := l.log[key := Log(l, key) + Repeated(l.now, k)], flights := Keys(key, from, n - k))
  }

  /** n requests wait for a bucket that is full by now. */
  ghost predicate FullAndAwaited(s: Server, l: Ledger, rpm: nat, f: Flight, from: nat, n: nat) {
    && f.limiter < |s.heap| && s.flights == Flights(f, from, n) && l.flights == Keys(f.key, from, n)
    && s.heap[f.limiter].last <= s.now == l.now && Level(s.heap[f.limiter], rpm, s.now) == Cap(rpm)
  }

  lemma OneDecides(s: Server, l: Ledger, rpm: nat, f: Flight, from: nat, n: nat, k: nat)
    requires FullAndAwaited(s, l, rpm, f, from, n) && k < n && k < rpm
    ensures var v, e := Decided(s, rpm, f, from, n, k), Decide(from + n - k - 1);
      && Possible(v, e) && Answer(v, rpm, e) == Some(true)
      && Next(v, rpm, e) == Decided(s, rpm, f, from, n, k + 1)
  {
    var v, e := Decided(s, rpm, f, from, n, k), Decide(from + n - k - 1);
    LastFlight(f, from, n - k);
    NonNegative(rpm, 0);
    assert Level(v.heap[f.limiter], rpm, v.now) == Cap(rpm) - k * COST;
    assert Cap(rpm) - k * COST >= COST;
    assert v.flights == Flights(f, from, n - k);
  }

  lemma OneLogs(l: Ledger, f: Flight, from: nat, n: nat, k: nat)
    requires k < n && l.flights == Keys(f.key, from, n)
    ensures LedgerNext(Logged(l, f.key, from, n, k), Decide(from + n - k - 1)) == Logged(l, f.key, from, n, k + 1)
  {
    var m := Logged(l, f.key, from, n, k);
    LastFlight(f, from, n - k);
    RepeatedOnce(Log(l, f.key), l.now, k);
    var log := Log(l, f.key) + Repeated(l.now, k + 1);
    assert Log(m, f.key) + [l.now] == log by { assert Log(m, f.key) == Log(l, f.key) + Repeated(l.now, k); }
    assert m.log[f.key := log] == l.log[f.key := log];
    assert m.flights == Keys(f.key, from, n - k) && m.now == l.now;
    assert from + n - k - 1 in m.flights && m.flights[from + n - k - 1] == f.key;
    assert LedgerNext(m, Decide(from + n - k - 1)) == Ledger(l.now, m.log[f.key := log], m.flights - {from + n - k - 1});
  }

  lemma RepeatedOnce(p: seq<nat>, t: nat, k: nat)
    ensures p + Repeated(t, 0) == p && p + Repeated(t, k) + [t] == p + Repeated(t, k + 1)
  {
    assert Repeated(t, k) + [t] == Repeated(t, k + 1);
  }

  lemma DecideOnce(s: Server, l: Ledger, rpm: nat, grace: nat, f: Flight, from: nat, n: nat, k: nat)
    requires FullAndAwaited(s, l, rpm, f, from, n) && k < n && k < rpm
    ensures Leads(Decided(s, rpm, f, from, n, k), Logged(l, f.key, from, n, k), rpm, grace, [Decide(from + n - k - 1)],
              Decided(s, rpm, f, from, n, k + 1), Logged(l, f.key, from, n, k + 1))
  {
    OneDecides(s, l, rpm, f, from, n, k);
    OneLogs(l, f, from, n, k);
    LeadsOnce(Decided(s, rpm, f, from, n, k), Logged(l, f.key, from, n, k), rpm, grace, Decide(from + n - k - 1));
  }

  lemma {:induction false} AllDecide(s: Server, l: Ledger, rpm: nat, grace: nat, f: Flight, from: nat, n: nat, k: nat)
    requires FullAndAwaited(s, l, rpm, f, from, n) && k <= n && k <= rpm
    ensures Leads(s, l, rpm, grace, Decides(from, n, k), Decided(s, rpm, f, from, n, k), Logged(l, f.key, from, n, k))
  {
    if k > 0 {
      AllDecide(s, l, rpm, grace, f, from, n, k - 1);
      DecideOnce(s, l, rpm, grace, f, from, n, k - 1);
      LeadsThen(s, l, rpm, grace, Decides(from, n, k - 1),
        Decided(s, rpm, f, from, n, k - 1), Logged(l, f.key, from, n, k - 1), [Decide(from + n - k)],
        Decided(s, rpm, f, from, n, k), Logged(l, f.key, from, n, k));
    }
  }

  /** A time just too long between lookup and decision; the sweep comes as soon as it may remove the entry. */
  const STALL: nat := SAFE + 1

  function Before(key: string, rpm: nat): seq<Event> {
    Lookups(key, 0, rpm) + [Tick(STALL)] + Decides(0, rpm, rpm) + [Tick(COST - 1)] + [Sweep]
  }

  /** The map after the sweep, and the bucket that was swept one nanosecond too early. */
  function SweptState(rpm: nat): Server {
    Server(STALL + COST - 1, [Bucket(0, STALL)], map[], map[])
  }

  function SweptLedger(rpm: nat, key: string): Ledger {
    Ledger(STALL + COST - 1, map[key := Repeated(STALL, rpm)], map[])
  }

  lemma StallDecides(rpm: nat, grace: nat, key: string, s: Server, l: Ledger)
    requires rpm >= 1
    requires s == Waiting(START, rpm, key, 0, rpm).(now := STALL) && l == EMPTY.(now := STALL, flights := Keys(key, 0, rpm))
    ensures Leads(s, l, rpm, grace, Decides(0, rpm, rpm),
              Server(STALL, [Bucket(0, STALL)], map[key := Slot(0, 0)], map[]), Ledger(STALL, map[key := Repeated(STALL, rpm)], map[]))
  {
    var f := Flight(key, 0, 0);
    NonNegative(rpm, STALL);
    assert FullAndAwaited(s, l, rpm, f, 0, rpm);
    AllDecide(s, l, rpm, grace, f, 0, rpm, rpm);
    assert [] + Repeated(STALL, rpm) == Repeated(STALL, rpm);
    assert Logged(l, key, 0, rpm, rpm).log == map[key := Repeated(STALL, rpm)];
    assert Decided(s, rpm, f, 0, rpm, rpm).heap == [Bucket(0, STALL)];
  }

  lemma StallLeads(rpm: nat, grace: nat, key: string)
    requires rpm >= 1 && grace >= STALL
    ensures Leads(START, EMPTY, rpm, grace, Before(key, rpm), SweptState(rpm), SweptLedger(rpm, key))
  {
    var s1, l1 := Waiting(START, rpm, key, 0, rpm), EMPTY.(flights := Keys(key, 0, rpm));
    var s2, l2 := s1.(now := STALL), l1.(now := STALL);
    var s3, l3 := Server(STALL, [Bucket(0, STALL)], map[key := Slot(0, 0)], map[]), Ledger(STALL, map[key := Repeated(STALL, rpm)], map[]);
    var s4, l4 := s3.(now := STALL + COST - 1), l3.(now := STALL + COST - 1);
    var a := Lookups(key, 0, rpm);
    AllLookUp(START, EMPTY, rpm, grace, key, 0, rpm);
    LeadsOnce(s1, l1, rpm, grace, Tick(STALL));
    LeadsThen(START, EMPTY, rpm, grace, a, s1, l1, [Tick(STALL)], s2, l2);
    StallDecides(rpm, grace, key, s2, l2);
    LeadsThen(START, EMPTY, rpm, grace, a + [Tick(STALL)], s2, l2, Decides(0, rpm, rpm), s3, l3);
    LeadsOnce(s3, l3, rpm, grace, Tick(COST - 1));
    LeadsThen(START, EMPTY, rpm, grace, a + [Tick(STALL)] + Decides(0, rpm, rpm), s3, l3, [Tick(COST - 1)], s4, l4);
    LeadsOnce(s4, l4, rpm, grace, Sweep);
    assert Swept(s4.limiters, s4.now) == map[];
    LeadsThen(START, EMPTY, rpm, grace, a + [Tick(STALL)] + Decides(0, rpm, rpm) + [Tick(COST - 1)], s4, l4, [Sweep],
      SweptState(rpm), SweptLedger(rpm, key));
  }

  /** As many further requests as the quota of the two bursts allows, and one more. */
  function Further(rpm: nat): nat
    requires rpm >= 1
  {
    Quota(rpm, COST - 1) + 1 - rpm
  }

  lemma FurtherBounds(rpm: nat)
    requires rpm >= 1
    ensures 1 <= Further(rpm) <= rpm
  {
    NonNegative(rpm, COST - 1);
    Distribute(rpm, COST - 1, 1);
    assert rpm * (COST - 1) < rpm * COST;
  }

  lemma OneTooMany(rpm: nat)
    requires rpm >= 1
    ensures var q := Quota(rpm, COST - 1);
      !Admits(rpm, Bursts(rpm, STALL, COST - 1, q), STALL + COST - 1)
  {
    var q := Quota(rpm, COST - 1);
    var past, t: nat := Bursts(rpm, STALL, COST - 1, q), STALL + COST - 1;
    FurtherBounds(rpm);
    BurstsAllGranted(rpm, STALL, COST - 1, q, 0);
    AdmitIff(rpm, past, t);
    assert past[0] == STALL;
  }

  function Stalled(key: string, rpm: nat): seq<Event>
    requires rpm >= 1
  {
    Before(key, rpm) + Lookups(key, rpm, Further(rpm)) + Decides(rpm, Further(rpm), Further(rpm) - 1)
  }

  lemma FurtherAwaited(rpm: nat, key: string, s: Server, l: Ledger)
    requires rpm >= 1
    requires s == Waiting(SweptState(rpm), rpm, key, rpm, Further(rpm))
    requires l == SweptLedger(rpm, key).(flights := Keys(key, rpm, Further(rpm)))
    ensures FullAndAwaited(s, l, rpm, Flight(key, 1, STALL + COST - 1), rpm, Further(rpm))
  {
    FurtherBounds(rpm);
    NonNegative(rpm, STALL + COST - 1);
  }

  lemma StalledLeads(rpm: nat, grace: nat, key: string) returns (s: Server, l: Ledger)
    requires rpm >= 1 && grace >= STALL
    ensures Leads(START, EMPTY, rpm, grace, Stalled(key, rpm), s, l)
    ensures Possible(s, Decide(rpm)) && Answer(s, rpm, Decide(rpm)) == Some(true)
    ensures l == Logged(SweptLedger(rpm, key).(flights := Keys(key, rpm, Further(rpm))), key, rpm, Further(rpm), Further(rpm) - 1)
  {
    FurtherBounds(rpm);
    var n := Further(rpm);
    var s0, l0 := SweptState(rpm), SweptLedger(rpm, key);
    var s1, l1 := Waiting(s0, rpm, key, rpm, n), l0.(flights := Keys(key, rpm, n));
    var f := Flight(key, 1, s0.now);
    FurtherAwaited(rpm, key, s1, l1);
    s, l := Decided(s1, rpm, f, rpm, n, n - 1), Logged(l1, key, rpm, n, n - 1);
    var head, mid := Before(key, rpm), Lookups(key, rpm, n);
    StallLeads(rpm, grace, key);
    AllLookUp(s0, l0, rpm, grace, key, rpm, n);
    LeadsThen(START, EMPTY, rpm, grace, head, s0, l0, mid, s1, l1);
    AllDecide(s1, l1, rpm, grace, f, rpm, n, n - 1);
    LeadsThen(START, EMPTY, rpm, grace, head + mid, s1, l1, Decides(rpm, n, n - 1), s, l);
    OneDecides(s1, l1, rpm, f, rpm, n, n - 1);
  }

  /** After the sweep the server admits one more request than the client's own past allows. */
  lemma StallShows(rpm: nat, grace: nat, key: string) returns (es: seq<Event>)
    requires rpm >= 1 && grace >= STALL
    ensures AllPrompt(START, rpm, grace, es) && AllPossible(START, rpm, es)
    ensures Answers(START, rpm, es) != LedgerAnswers(EMPTY, rpm, es)
  {
    var s, l := StalledLeads(rpm, grace, key);
    LastAnswers(START, EMPTY, rpm, grace, Stalled(key, rpm), s, l, Decide(rpm));
    FurtherBounds(rpm);
    LastIsRefused(rpm, key, SweptLedger(rpm, key).(flights := Keys(key, rpm, Further(rpm))), l);
    es := Stalled(key, rpm) + [Decide(rpm)];
  }

  lemma LastIsRefused(rpm: nat, key: string, l1: Ledger, l2: Ledger)
    requires rpm >= 1 && 1 <= Further(rpm) <= rpm
    requires l1 == SweptLedger(rpm, key).(flights := Keys(key, rpm, Further(rpm)))
    requires l2 == Logged(l1, key, rpm, Further(rpm), Further(rpm) - 1)
    ensures LedgerAnswer(l2, rpm, Decide(rpm)) == Some(false)
  {
    var n := Further(rpm);
    RepeatedOnce(Log(l1, key), l1.now, 0);
    assert Log(l2, key) == Repeated(STALL, rpm) + Repeated(l1.now, n - 1);
    assert Log(l2, key) == Bursts(rpm, STALL, COST - 1, rpm + n - 1);
    LastFlight(Flight(key, 1, l1.now), rpm, 1);
    assert l2.flights == Keys(key, rpm, 1);
    OneTooMany(rpm);
  }

  /** At rate zero nothing is ever admitted, swept or not. */
  lemma {:induction false} ZeroRate(s: Server, l: Ledger, grace: nat, es: seq<Event>)
    requires s.flights.Keys == l.flights.Keys && AllPrompt(s, 0, grace, es)
    ensures AllPossible(s, 0, es) && Answers(s, 0, es) == LedgerAnswers(l, 0, es)
    decreases |es|
  {
    if es != [] {
      ZeroRate(Next(s, 0, es[0]), LedgerNext(l, es[0]), grace, es[1..]);
    }
  }

  /** Whatever happens, with decisions within grace of their lookups, sweeping changes no answer. */
  ghost predicate SweepsHidden(rpm: nat, grace: nat) {
    forall es :: AllPrompt(START, rpm, grace, es) ==> AllPossible(START, rpm, es) && Answers(START, rpm, es) == LedgerAnswers(EMPTY, rpm, es)
  }

  /** Sweeping is unobservable exactly if no request may stall longer than SAFE; to the nanosecond, and at every rate. */
  lemma EvictionIsUnobservableIff(rpm: nat, grace: nat)
    ensures SweepsHidden(rpm, grace) <==> rpm == 0 || grace <= SAFE
  {
    if rpm == 0 {
      forall es | AllPrompt(START, 0, grace, es)
        ensures AllPossible(START, 0, es) && Answers(START, 0, es) == LedgerAnswers(EMPTY, 0, es)
      {
        ZeroRate(START, EMPTY, grace, es);
      }
    } else if grace <= SAFE {
      StartRelated(rpm);
      forall es | AllPrompt(START, rpm, grace, es)
        ensures AllPossible(START, rpm, es) && Answers(START, rpm, es) == LedgerAnswers(EMPTY, rpm, es)
      {
        PromptLonger(START, rpm, grace, SAFE, es);
        SweepsAreUnobservable(START, rpm, EMPTY, es);
      }
    } else {
      var es := StallShows(rpm, grace, "");
    }
  }
}
