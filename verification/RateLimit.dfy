/** The fixed-window request limiter (core/ratelimit.py): an INCR per request, an EXPIRE by the request
    that created the counter, and a comparison with the limit of the route family. */
module RateLimit {
  import opened Prelude

  const WINDOW := 60_000  // milliseconds, the resolution of Redis

  /* ---------- choosing the bucket ---------- */

  /** The route families of the limit table, and the one for every other path. */
  datatype Bucket = Login | Refresh | Mfa | Users | Default {

    function Name(): string {
      match this
      case Login => "/v1/auth/login"
      case Refresh => "/v1/auth/refresh"
      case Mfa => "/v1/auth/mfa"
      case Users => "/v1/users"
      case Default => "default"
    }

    function Limit(): nat {
      match this
      case Login => 10
      case Refresh => 30
      case Mfa => 20
      case Users => 60
      case Default => 600
    }
  }

  const LIMITS: seq<Bucket> := [Login, Refresh, Mfa, Users]

  /** The bucket of a path, stated without an order: the family whose name it starts with, if any. */
  ghost predicate BucketOf(path: string, b: Bucket) {
    if b == Default then forall c: Bucket :: c != Default ==> !(c.Name() <= path) else b.Name() <= path
  }

  method RouteBucket(path: string) returns (b: Bucket)
    ensures BucketOf(path, b)
  {
    for k := 0 to |LIMITS|
      invariant forall j :: 0 <= j < k ==> !(LIMITS[j].Name() <= path)
    {
      if LIMITS[k].Name() <= path {
        return LIMITS[k];
      }
    }
    assert LIMITS[0] == Login && LIMITS[1] == Refresh && LIMITS[2] == Mfa && LIMITS[3] == Users;
    return Default;
  }

  /** No path has two buckets, so the order of the table does not matter. */
  lemma BucketIsUnique(path: string, b: Bucket, c: Bucket)
    requires BucketOf(path, b) && BucketOf(path, c)
    ensures b == c
  {
    if b != Default && c != Default {
      NameCharacters(b);
      NameCharacters(c);
      assert path[4] == b.Name()[4] == c.Name()[4];
      if b != Users {
        assert path[9] == b.Name()[9] == c.Name()[9];
      }
    }
  }

  /** The limit table, path by path. */
  function LimitOf(path: string): nat {
    if "/v1/auth/login" <= path then 10
    else if "/v1/auth/refresh" <= path then 30
    else if "/v1/auth/mfa" <= path then 20
    else if "/v1/users" <= path then 60
    else 600
  }

  function FamilyOf(path: string): string {
    if "/v1/auth/login" <= path then "/v1/auth/login"
    else if "/v1/auth/refresh" <= path then "/v1/auth/refresh"
    else if "/v1/auth/mfa" <= path then "/v1/auth/mfa"
    else if "/v1/users" <= path then "/v1/users"
    else "default"
  }

  lemma BucketOfPath(path: string, b: Bucket)
    requires BucketOf(path, b)
    ensures b.Limit() == LimitOf(path) && b.Name() == FamilyOf(path)
  {
    var c := if "/v1/auth/login" <= path then Login
             else if "/v1/auth/refresh" <= path then Refresh
             else if "/v1/auth/mfa" <= path then Mfa
             else if "/v1/users" <= path then Users
             else Default;
    assert BucketOf(path, c);
    BucketIsUnique(path, b, c);
  }

  lemma NameCharacters(b: Bucket)
    ensures ':' !in b.Name()
    ensures b != Default ==> |b.Name()| > 4 && b.Name()[4] == if b == Users then 'u' else 'a'
    ensures b != Default && b != Users
            ==> |b.Name()| > 9 && b.Name()[9] == if b == Login then 'l' else if b == Refresh then 'r' else 'm'
    ensures |b.Name()| == match b case Login => 14 case Refresh => 16 case Mfa => 12 case Users => 9 case Default => 7
  {
  }

  /* ---------- the Redis counter of a (bucket, client) pair ---------- */

  function Key(b: Bucket, client: string): string { "rl:" + (b.Name() + ":" + client) }

  /** Two (bucket, client) pairs never share a counter, whatever the client string contains. */
  lemma KeyIsInjective(b: Bucket, client: string, b': Bucket, client': string)
    requires Key(b, client) == Key(b', client')
    ensures b == b' && client == client'
  {
    NameCharacters(b);
    NameCharacters(b');
    var k, k' := Key(b, client), Key(b', client');
    assert k[3..] == b.Name() + ":" + client && k'[3..] == b'.Name() + ":" + client';
    SplitAtColon(b.Name(), client, b'.Name(), client');
  }

  lemma SplitAtColon(a: string, s: string, b: string, t: string)
    requires ':' !in a && ':' !in b
    requires a + ":" + s == b + ":" + t
    ensures a == b && s == t
  {
    var l, r := a + ":" + s, b + ":" + t;
    assert l[|a|] == ':' && r[|b|] == ':';
    assert forall i :: 0 <= i < |a| ==> l[i] == a[i] != ':';
    assert forall i :: 0 <= i < |b| ==> r[i] == b[i] != ':';
    assert |a| == |b|;
    assert a == l[..|a|] && b == r[..|b|];
    assert s == l[|a| + 1..] && t == r[|b| + 1..];
  }

  datatype Counter = Counter(count: nat, deadline: Option<int>)

  type Redis<K(==)> = map<K, Counter>

  predicate IsLive<K>(r: Redis<K>, key: K, now: int) {
    key in r && (r[key].deadline.Some? ==> now < r[key].deadline.value)
  }

  /** INCR: a missing or expired key starts again at one without a deadline; a live one keeps its deadline. */
  function Incr<K>(r: Redis<K>, key: K, now: int): Redis<K> {
    if IsLive(r, key, now) then r[key := r[key].(count := r[key].count + 1)]
    else r[key := Counter(1, None)]
  }

  function Expire<K>(r: Redis<K>, key: K, now: int): Redis<K> {
    if IsLive(r, key, now) then r[key := r[key].(deadline := Some(now + WINDOW))] else r
  }

  /* ---------- runs: any interleaving of the steps of any number of requests ---------- */

  datatype Entry<K> = Entry(at: int, key: K, count: nat)

  /** `owed` holds the requests that have seen a count of one and have not yet sent their EXPIRE;
      `log` the INCR results so far, which decide admission. */
  datatype State<K(==)> = State(now: int, redis: Redis<K>, owed: map<nat, K>, log: seq<Entry<K>>)

  datatype Event =
    | Arrive(at: int, id: nat, bucket: Bucket, client: string)  // the INCR of a request
    | SetExpiry(at: int, id: nat)                               // its EXPIRE
    | Abandon(at: int, id: nat)                                 // it dies before its EXPIRE

  const Empty: State<string> := State(0, map[], map[], [])

  predicate Enabled(s: State<string>, e: Event) {
    s.now <= e.at &&
    match e
    case Arrive(_, id, _, _) => id !in s.owed
    case SetExpiry(_, id) => id in s.owed
    case Abandon(_, id) => id in s.owed
  }

  function Arrival<K>(s: State<K>, at: int, id: nat, key: K): State<K> {
    var redis := Incr(s.redis, key, at);
    var count := redis[key].count;
    State(at, redis, if count == 1 then s.owed[id := key] else s.owed, s.log + [Entry(at, key, count)])
  }

  function Apply(s: State<string>, e: Event): State<string>
    requires Enabled(s, e)
  {
    match e
    case Arrive(at, id, b, client) => Arrival(s, at, id, Key(b, client))
    case SetExpiry(at, id) =>
      State(at, Expire(s.redis, s.owed[id], at), s.owed - {id}, s.log)
    case Abandon(at, id) =>
      State(at, s.redis, s.owed - {id}, s.log)
  }

  ghost predicate IsRun(s: State<string>, events: seq<Event>, s': State<string>)
    decreases |events|
  {
    if events == [] then s' == s
    else Enabled(s, events[0]) && IsRun(Apply(s, events[0]), events[1..], s')
  }

  /* ---------- one request handled without interruption ---------- */

  datatype Response = Forwarded | TooManyRequests(limit: nat, bucket: string, retryAfterSeconds: nat)

  class Middleware {
    var clock: int
    var redis: Redis<string>
    var owed: map<nat, string>
    var log: seq<Entry<string>>

    function Abstract(): State<string>
      reads this
    {
      State(clock, redis, owed, log)
    }

    constructor ()
      ensures Abstract() == Empty
    {
      clock, redis, owed, log := 0, map[], map[], [];
    }

    /** The middleware takes the steps of one request: its INCR, and its EXPIRE when it started the counter. */
    method Dispatch(path: string, client: string, id: nat, incrAt: int, expireAt: int) returns (r: Response)
      requires clock <= incrAt <= expireAt && id !in owed
      modifies this
      ensures exists b :: BucketOf(path, b) && Enabled(old(Abstract()), Arrive(incrAt, id, b, client)) &&
                var mid := Apply(old(Abstract()), Arrive(incrAt, id, b, client));
                var count := mid.log[|mid.log| - 1].count;
                && (if count == 1
                    then Enabled(mid, SetExpiry(expireAt, id)) && Abstract() == Apply(mid, SetExpiry(expireAt, id))
                    else Abstract() == mid)
                && r == if count <= LimitOf(path) then Forwarded else TooManyRequests(LimitOf(path), FamilyOf(path), 60)
    {
      var bucket := RouteBucket(path);
      BucketOfPath(path, bucket);
      hide LimitOf, FamilyOf;
      var key := Key(bucket, client);
      redis := Incr(redis, key, incrAt);
      var count := redis[key].count;
      clock, log := incrAt, log + [Entry(incrAt, key, count)];
      ghost var mid := Apply(old(Abstract()), Arrive(incrAt, id, bucket, client));
      assert mid.log[|mid.log| - 1].count == count;
      if count == 1 {
        redis := Expire(redis, key, expireAt);
        clock := expireAt;
        assert mid.owed - {id} == owed;
      }
      if count > bucket.Limit() {
        return TooManyRequests(bucket.Limit(), bucket.Name(), 60);
      }
      return Forwarded;
    }
  }

  /* ---------- what the log of one key looks like ---------- */

  function KeyLog<K(==)>(key: K, log: seq<Entry<K>>): seq<Entry<K>> {
    if log == [] then []
    else
      var e := log[|log| - 1];
      KeyLog(key, log[..|log| - 1]) + if e.key == key then [e] else []
  }

  /** Counts go up by one or restart at one, time does not go back, and restarts are a window apart. */
  ghost predicate Windowed<K>(l: seq<Entry<K>>) {
    l == [] || (Windowed(l[..|l| - 1]) && Continues(l[..|l| - 1], l[|l| - 1]))
  }

  ghost predicate Continues<K>(l: seq<Entry<K>>, e: Entry<K>) {
    && (l != [] ==> l[|l| - 1].at <= e.at)
    && (e.count == 1 || (l != [] && e.count == l[|l| - 1].count + 1))
    && (e.count == 1 ==> forall i :: 0 <= i < |l| && l[i].count == 1 ==> l[i].at + WINDOW <= e.at)
  }

  lemma {:induction false} TimesGrow<K>(l: seq<Entry<K>>)
    requires Windowed(l)
    ensures forall i :: 0 <= i < |l| ==> l[i].at <= l[|l| - 1].at
  {
    if l != [] {
      TimesGrow(l[..|l| - 1]);
    }
  }

  ghost predicate StoreMatches<K>(r: Redis<K>, key: K, l: seq<Entry<K>>) {
    && (key in r <==> l != [])
    && (key in r ==> r[key].count == l[|l| - 1].count)
    && (key in r && r[key].deadline.Some? ==>
          forall i :: 0 <= i < |l| && l[i].count == 1 ==> l[i].at + WINDOW <= r[key].deadline.value)
  }

  /** At most one request owes the EXPIRE of a key, and while it does the key has no deadline. */
  ghost predicate OwedOnce<K>(owed: map<nat, K>, r: Redis<K>, key: K) {
    && (forall id :: id in owed && owed[id] == key ==> key in r && r[key].deadline == None)
    && (forall id, id' :: id in owed && id' in owed && owed[id] == owed[id'] == key ==> id == id')
  }

  ghost predicate KeyInvariant<K>(s: State<K>, key: K) {
    var l := KeyLog(key, s.log);
    && Windowed(l)
    && (l != [] ==> l[|l| - 1].at <= s.now && l[|l| - 1].count > 0)
    && StoreMatches(s.redis, key, l)
    && OwedOnce(s.owed, s.redis, key)
  }

  lemma ArrivalInLog<K>(key: K, log: seq<Entry<K>>, entry: Entry<K>)
    ensures KeyLog(key, log + [entry]) == KeyLog(key, log) + if entry.key == key then [entry] else []
  {
    assert (log + [entry])[..|log|] == log;
  }

  /** A restart happens only when the counter is missing or past its deadline. */
  lemma ArrivalContinues<K>(r: Redis<K>, key: K, l: seq<Entry<K>>, at: int)
    requires StoreMatches(r, key, l) && (l != [] ==> l[|l| - 1].at <= at && l[|l| - 1].count > 0)
    ensures Continues(l, Entry(at, key, Incr(r, key, at)[key].count))
  {
  }

  lemma ArrivalKeepsStore<K>(r: Redis<K>, key: K, l: seq<Entry<K>>, at: int)
    requires StoreMatches(r, key, l) && (l != [] ==> l[|l| - 1].count > 0)
    ensures StoreMatches(Incr(r, key, at), key, l + [Entry(at, key, Incr(r, key, at)[key].count)])
    ensures Incr(r, key, at)[key].count > 0
  {
    var r' := Incr(r, key, at);
    var e := Entry(at, key, r'[key].count);
    assert (l + [e])[|l|] == e;
    assert e.count == 1 ==> !IsLive(r, key, at);
  }

  lemma ArrivalKeepsOwed<K>(owed: map<nat, K>, r: Redis<K>, key: K, l: seq<Entry<K>>, at: int, id: nat)
    requires OwedOnce(owed, r, key) && id !in owed
    requires StoreMatches(r, key, l) && (l != [] ==> l[|l| - 1].count > 0)
    ensures var r' := Incr(r, key, at);
            OwedOnce(if r'[key].count == 1 then owed[id := key] else owed, r', key)
  {
  }

  lemma ArrivalKeepsInvariant<K>(s: State<K>, at: int, id: nat, key: K)
    requires s.now <= at && id !in s.owed && KeyInvariant(s, key)
    ensures KeyInvariant(Arrival(s, at, id, key), key)
  {
    hide StoreMatches, OwedOnce, Incr, Continues, KeyLog, Windowed;
    var l := KeyLog(key, s.log);
    ArrivalContinues(s.redis, key, l, at);
    ArrivalKeepsStore(s.redis, key, l, at);
    ArrivalKeepsOwed(s.owed, s.redis, key, l, at, id);
    var entry := Entry(at, key, Incr(s.redis, key, at)[key].count);
    ArrivalInLog(key, s.log, entry);
    WindowedExtends(l, entry);
  }

  lemma WindowedExtends<K>(l: seq<Entry<K>>, e: Entry<K>)
    requires Windowed(l) && Continues(l, e)
    ensures Windowed(l + [e]) && (l + [e])[|l + [e]| - 1] == e
  {
    hide Continues;
    assert (l + [e])[..|l|] == l;
  }

  lemma OtherArrivalKeepsInvariant<K>(s: State<K>, at: int, id: nat, other: K, key: K)
    requires s.now <= at && id !in s.owed && KeyInvariant(s, key) && other != key
    ensures KeyInvariant(Arrival(s, at, id, other), key)
  {
    var s' := Arrival(s, at, id, other);
    hide KeyLog, Windowed, Continues;
    ArrivalInLog(key, s.log, s'.log[|s.log|]);
    assert KeyLog(key, s'.log) == KeyLog(key, s.log);
  }

  lemma ExpiryKeepsInvariant(s: State<string>, e: Event, key: string)
    requires Enabled(s, e) && !e.Arrive? && KeyInvariant(s, key)
    ensures KeyInvariant(Apply(s, e), key)
  {
    TimesGrow(KeyLog(key, s.log));
  }

  lemma StepKeepsKeyInvariant(s: State<string>, e: Event, key: string)
    requires Enabled(s, e) && KeyInvariant(s, key)
    ensures KeyInvariant(Apply(s, e), key)
  {
    if !e.Arrive? {
      ExpiryKeepsInvariant(s, e, key);
    } else if Key(e.bucket, e.client) == key {
      ArrivalKeepsInvariant(s, e.at, e.id, key);
    } else {
      OtherArrivalKeepsInvariant(s, e.at, e.id, Key(e.bucket, e.client), key);
    }
  }

  lemma {:induction false} RunKeepsKeyInvariant(s: State<string>, events: seq<Event>, s': State<string>, key: string)
    requires IsRun(s, events, s') && KeyInvariant(s, key)
    ensures KeyInvariant(s', key)
    decreases |events|
  {
    if events != [] {
      StepKeepsKeyInvariant(s, events[0], key);
      RunKeepsKeyInvariant(Apply(s, events[0]), events[1..], s', key);
    }
  }

  /* ---------- counting ---------- */

  /** How many requests the limit lets through among the entries of `l` with a time in [from, to). */
  function Admitted<K>(l: seq<Entry<K>>, limit: nat, from: int, to: int): nat {
    if l == [] then 0
    else
      var e := l[|l| - 1];
      Admitted(l[..|l| - 1], limit, from, to) + if from <= e.at < to && e.count <= limit then 1 else 0
  }

  function Births<K>(l: seq<Entry<K>>, from: int, to: int): nat {
    if l == [] then 0
    else
      var e := l[|l| - 1];
      Births(l[..|l| - 1], from, to) + if from <= e.at < to && e.count == 1 then 1 else 0
  }

  /** The last restart inside the interval is at least one window later for every earlier one. */
  lemma {:induction false} BirthsAreSpaced<K>(l: seq<Entry<K>>, from: int, to: int) returns (i: nat)
    requires Windowed(l) && Births(l, from, to) > 0
    ensures i < |l| && l[i].count == 1 && from + (Births(l, from, to) - 1) * 60_000 <= l[i].at < to
  {
    var n := |l| - 1;
    i := n;
    if Births(l[..n], from, to) > 0 {
      var j := BirthsAreSpaced(l[..n], from, to);
      assert l[..n][j] == l[j];
      if !(from <= l[n].at < to && l[n].count == 1) {
        i := j;
      }
    }
  }

  lemma FewBirths<K>(l: seq<Entry<K>>, from: int, to: int)
    requires Windowed(l) && from <= to
    ensures Births(l, from, to) <= CeilDiv(to - from, WINDOW)
  {
    if Births(l, from, to) > 0 {
      var i := BirthsAreSpaced(l, from, to);
      CeilDivIsLeast(Births(l, from, to), to - from);
    }
  }

  lemma CeilDivIsLeast(births: nat, length: nat)
    requires (births - 1) * WINDOW < length
    ensures births <= CeilDiv(length, WINDOW)
  {
  }

  /** Inside the interval each counter lets through what its count says: a counter older than the
      interval adds less than one limit, every restart in it at most one. */
  lemma {:induction false} AdmittedPerBirth<K>(l: seq<Entry<K>>, limit: nat, from: int, to: int)
    requires Windowed(l) && limit > 0
    ensures Admitted(l, limit, from, to) < limit * (Births(l, from, to) + 1)
    ensures l != [] ==> l[|l| - 1].count > 0
    ensures l != [] && l[|l| - 1].at < to
            ==> Admitted(l, limit, from, to) < limit * Births(l, from, to) + Min(l[|l| - 1].count, limit)
    ensures l != [] && l[|l| - 1].at < from ==> Admitted(l, limit, from, to) == 0 == Births(l, from, to)
  {
    Distribute(limit, Births(l, from, to));
    if l != [] {
      var n := |l| - 1;
      AdmittedPerBirth(l[..n], limit, from, to);
      Distribute(limit, Births(l[..n], from, to));
      assert n > 0 ==> l[..n][n - 1] == l[n - 1];
    }
  }

  /* ---------- the guarantees ---------- */

  /** Over any run, however its requests interleave and wherever some of them die, one client is let
      through fewer than limit * (ceil(T / 60 s) + 1) times in a route family in any T milliseconds. */
  lemma WindowBound(events: seq<Event>, s: State<string>, b: Bucket, client: string, from: int, to: int)
    requires IsRun(Empty, events, s) && from <= to
    ensures Admitted(KeyLog(Key(b, client), s.log), b.Limit(), from, to)
              < b.Limit() * (CeilDiv(to - from, 60_000) + 1)
  {
    var key := Key(b, client);
    RunKeepsKeyInvariant(Empty, events, s, key);
    var l := KeyLog(key, s.log);
    FewBirths(l, from, to);
    AdmittedPerBirth(l, b.Limit(), from, to);
    MulMonotone(b.Limit(), Births(l, from, to) + 1, CeilDiv(to - from, WINDOW) + 1);
  }

  /** While the counter is not restarted, less than one limit gets through after its first request. */
  lemma LifetimeBound(events: seq<Event>, s: State<string>, b: Bucket, client: string, from: int, to: int)
    requires IsRun(Empty, events, s)
    requires Births(KeyLog(Key(b, client), s.log), from, to) == 0
    ensures Admitted(KeyLog(Key(b, client), s.log), b.Limit(), from, to) < b.Limit()
  {
    RunKeepsKeyInvariant(Empty, events, s, Key(b, client));
    AdmittedPerBirth(KeyLog(Key(b, client), s.log), b.Limit(), from, to);
  }

  lemma {:induction false} LifetimeCounts<K>(l: seq<Entry<K>>)
    requires Windowed(l) && l != [] && l[|l| - 1].count > 0
    ensures var c := l[|l| - 1].count;
            c <= |l| && forall k :: |l| - c <= k < |l| ==> l[k].count == k - (|l| - c) + 1
  {
    var n := |l| - 1;
    if l[n].count != 1 {
      LifetimeCounts(l[..n]);
    }
  }

  /** Within the present lifetime of a counter, which started at entry `first`, the limit lets exactly the first `limit`
      requests through. */
  lemma LifetimeLetsThrough(events: seq<Event>, s: State<string>, b: Bucket, client: string, k: nat)
    requires IsRun(Empty, events, s)
    requires var l := KeyLog(Key(b, client), s.log); k < |l| && |l| - l[|l| - 1].count <= k
    ensures var l := KeyLog(Key(b, client), s.log);
            var first := |l| - l[|l| - 1].count;
            0 <= first && l[first].count == 1 && (l[k].count <= b.Limit() <==> k < first + b.Limit())
  {
    RunKeepsKeyInvariant(Empty, events, s, Key(b, client));
    hide Key, KeyLog, Windowed;
    LifetimeCounts(KeyLog(Key(b, client), s.log));
  }

  lemma MinuteBound(events: seq<Event>, s: State<string>, b: Bucket, client: string, from: int)
    requires IsRun(Empty, events, s)
    ensures Admitted(KeyLog(Key(b, client), s.log), b.Limit(), from, from + 60_000) < 2 * b.Limit()
  {
    WindowBound(events, s, b, client, from, from + WINDOW);
  }

  /** On the paths of the login family fewer than 20 requests of a client pass in any minute, and so on for each
      family. */
  lemma MinuteBoundOfPath(events: seq<Event>, s: State<string>, path: string, b: Bucket, client: string, from: int)
    requires IsRun(Empty, events, s) && BucketOf(path, b)
    ensures var n := Admitted(KeyLog(Key(b, client), s.log), LimitOf(path), from, from + 60_000);
            && n < 2 * LimitOf(path)
            && ("/v1/auth/login" <= path ==> n < 20)
            && ("/v1/auth/refresh" <= path ==> n < 60)
            && ("/v1/auth/mfa" <= path ==> n < 40)
            && ("/v1/users" <= path ==> n < 120)
            && n < 1200
  {
    MinuteBound(events, s, b, client, from);
    BucketOfPath(path, b);
    hide Key, KeyLog, Admitted;
    FamiliesAreApart(path);
  }

  lemma FamiliesAreApart(path: string)
    ensures "/v1/auth/login" <= path ==> LimitOf(path) == 10
    ensures "/v1/auth/refresh" <= path ==> LimitOf(path) == 30
    ensures "/v1/auth/mfa" <= path ==> LimitOf(path) == 20
    ensures "/v1/users" <= path ==> LimitOf(path) == 60
  {
    assert "/v1/auth/login" <= path ==> path[9] == 'l' && path[4] == 'a';
    assert "/v1/auth/refresh" <= path ==> path[9] == 'r' && path[4] == 'a';
    assert "/v1/auth/mfa" <= path ==> path[9] == 'm' && path[4] == 'a';
    assert "/v1/users" <= path ==> path[4] == 'u';
  }

  lemma Distribute(a: nat, x: nat)
    ensures a * (x + 1) == a * x + a
  {
  }

  lemma MulMonotone(a: nat, x: int, y: int)
    requires x <= y
    ensures a * x <= a * y
  {
  }

  /* ---------- a counter nobody gives a deadline ---------- */

  /** A counter without a deadline, and no request left that would set one. */
  ghost predicate Stuck<K>(s: State<K>, key: K) {
    key in s.redis && s.redis[key].deadline.None? && forall id :: id in s.owed ==> s.owed[id] != key
  }

  /** Some request that had started the key's counter died before its EXPIRE. */
  ghost predicate DiesOwing(s: State<string>, events: seq<Event>, key: string)
    decreases |events|
  {
    && events != [] && Enabled(s, events[0])
    && (|| (events[0].Abandon? && s.owed[events[0].id] == key)
        || DiesOwing(Apply(s, events[0]), events[1..], key))
  }

  lemma CountIsPositive<K>(s: State<K>, key: K)
    requires KeyInvariant(s, key) && key in s.redis
    ensures s.redis[key].count > 0
  {
  }

  lemma ArrivalSticks<K>(s: State<K>, at: int, id: nat, k: K, key: K)
    requires id !in s.owed && (key in s.redis ==> s.redis[key].count > 0)
    ensures Stuck(Arrival(s, at, id, k), key) <==> Stuck(s, key)
  {
    var s' := Arrival(s, at, id, k);
    if k == key && s'.redis[key].count == 1 {
      assert s'.owed[id] == key;
    }
    if j :| j in s.owed && s.owed[j] == key {
      assert j in s'.owed && s'.owed[j] == key;
    }
  }

  lemma ExpirySticks(s: State<string>, e: Event, key: string)
    requires Enabled(s, e) && !e.Arrive? && OwedOnce(s.owed, s.redis, key)
    ensures Stuck(Apply(s, e), key) <==> Stuck(s, key) || (e.Abandon? && s.owed[e.id] == key)
  {
    var s' := Apply(s, e);
    assert forall id :: id in s'.owed ==> id in s.owed && id != e.id && s'.owed[id] == s.owed[id];
    if s.owed[e.id] != key && !Stuck(s, key) && key in s.redis && s.redis[key].deadline.None? {
      var id :| id in s.owed && s.owed[id] == key;
      assert id in s'.owed;
    }
  }

  lemma StepSticks(s: State<string>, e: Event, key: string)
    requires Enabled(s, e) && KeyInvariant(s, key)
    ensures Stuck(Apply(s, e), key) <==> Stuck(s, key) || (e.Abandon? && s.owed[e.id] == key)
  {
    if key in s.redis {
      CountIsPositive(s, key);
    }
    hide KeyLog, Windowed, StoreMatches, OwedOnce, Stuck, Arrival, Key;
    match e {
      case Arrive(at, id, b, client) => ArrivalSticks(s, at, id, Key(b, client), key);
      case _ => ExpirySticks(s, e, key);
    }
  }

  lemma {:induction false} SticksExactlyWhen(s: State<string>, events: seq<Event>, s': State<string>, key: string)
    requires IsRun(s, events, s') && KeyInvariant(s, key)
    ensures Stuck(s', key) <==> Stuck(s, key) || DiesOwing(s, events, key)
    decreases |events|
  {
    if events != [] {
      StepSticks(s, events[0], key);
      StepKeepsKeyInvariant(s, events[0], key);
      hide Stuck, KeyInvariant, Apply, Enabled;
      SticksExactlyWhen(Apply(s, events[0]), events[1..], s', key);
    }
  }

  /** A counter is left without a deadline for ever exactly when the request that started it dies before its EXPIRE. */
  lemma StuckExactlyWhen(events: seq<Event>, s: State<string>, b: Bucket, client: string)
    requires IsRun(Empty, events, s)
    ensures Stuck(s, Key(b, client)) <==> DiesOwing(Empty, events, Key(b, client))
  {
    SticksExactlyWhen(Empty, events, s, Key(b, client));
  }

  /** A stuck counter only counts: it never starts again. */
  lemma StuckCounts(s: State<string>, e: Event, key: string)
    requires Enabled(s, e) && Stuck(s, key) && s.redis[key].count > 0
    ensures var s', n := Apply(s, e), s.redis[key].count;
            && Stuck(s', key)
            && if e.Arrive? && Key(e.bucket, e.client) == key
               then && s'.redis[key].count == n + 1
                    && KeyLog(key, s'.log) == KeyLog(key, s.log) + [Entry(e.at, key, n + 1)]
               else s'.redis[key].count == n && KeyLog(key, s'.log) == KeyLog(key, s.log)
  {
    hide KeyLog, Key;
    match e {
      case Arrive(at, id, b, client) =>
        var k := Key(b, client);
        ArrivalSticks(s, at, id, k, key);
        ArrivalInLog(key, s.log, Entry(at, k, Incr(s.redis, k, at)[k].count));
      case _ =>
    }
  }

  lemma {:induction false} StuckRun(s: State<string>, events: seq<Event>, s': State<string>, key: string)
    requires IsRun(s, events, s') && Stuck(s, key) && s.redis[key].count > 0
    ensures var l, l' := KeyLog(key, s.log), KeyLog(key, s'.log);
            l <= l' && forall i :: |l| <= i < |l'| ==> l'[i].count == s.redis[key].count + (i - |l|) + 1
    decreases |events|
  {
    if events != [] {
      StuckCounts(s, events[0], key);
      hide Stuck, Apply, Enabled, KeyLog, Key;
      StuckRun(Apply(s, events[0]), events[1..], s', key);
    }
  }

  /** Once that has happened the limit lets through what is left of it and then nothing, however long the client
      waits: the i-th request of the client is let through only up to the limit's rest. */
  lemma RefusedForEver(before: seq<Event>, s: State<string>, events: seq<Event>, s': State<string>,
                       b: Bucket, client: string, i: nat)
    requires IsRun(Empty, before, s) && DiesOwing(Empty, before, Key(b, client)) && IsRun(s, events, s')
    requires |KeyLog(Key(b, client), s.log)| <= i < |KeyLog(Key(b, client), s'.log)|
    ensures var l, l' := KeyLog(Key(b, client), s.log), KeyLog(Key(b, client), s'.log);
            && l != [] && l <= l'
            && (l'[i].count <= b.Limit() <==> i < |l| + b.Limit() - l[|l| - 1].count)
  {
    var key := Key(b, client);
    RunKeepsKeyInvariant(Empty, before, s, key);
    StuckExactlyWhen(before, s, b, client);
    hide Key, KeyLog, Windowed, DiesOwing, IsRun;
    StuckRun(s, events, s', key);
  }

  /* ---------- a counter with a deadline refuses what is over the limit until then ---------- */

  /** The counter is there until its deadline, and no request is left that would change that. */
  ghost predicate Ticking<K>(s: State<K>, key: K, deadline: int) {
    && key in s.redis && s.redis[key].deadline == Some(deadline) && s.redis[key].count > 0
    && forall id :: id in s.owed ==> s.owed[id] != key
  }

  lemma TickingStep(s: State<string>, e: Event, key: string, deadline: int)
    requires Enabled(s, e) && Ticking(s, key, deadline) && e.at < deadline
    ensures var s', n := Apply(s, e), s.redis[key].count;
            && Ticking(s', key, deadline)
            && if e.Arrive? && Key(e.bucket, e.client) == key
               then && s'.redis[key].count == n + 1
                    && KeyLog(key, s'.log) == KeyLog(key, s.log) + [Entry(e.at, key, n + 1)]
               else s'.redis[key].count == n && KeyLog(key, s'.log) == KeyLog(key, s.log)
  {
    hide KeyLog, Key;
    match e {
      case Arrive(at, id, b, client) =>
        var k := Key(b, client);
        ArrivalInLog(key, s.log, Entry(at, k, Incr(s.redis, k, at)[k].count));
      case _ =>
    }
  }

  lemma {:induction false} TickingRun(s: State<string>, events: seq<Event>, s': State<string>, key: string,
                                      deadline: int)
    requires IsRun(s, events, s') && Ticking(s, key, deadline)
    requires forall i :: 0 <= i < |events| ==> events[i].at < deadline
    ensures var l, l' := KeyLog(key, s.log), KeyLog(key, s'.log);
            l <= l' && forall i :: |l| <= i < |l'| ==> l'[i].count == s.redis[key].count + (i - |l|) + 1
    decreases |events|
  {
    if events != [] {
      TickingStep(s, events[0], key, deadline);
      assert forall i :: 0 <= i < |events| - 1 ==> events[1..][i] == events[i + 1];
      hide Ticking, Apply, Enabled, KeyLog, Key;
      TickingRun(Apply(s, events[0]), events[1..], s', key, deadline);
    }
  }

  lemma StartsTicking(s: State<string>, at: int, id: nat, key: string)
    requires Enabled(s, SetExpiry(at, id)) && s.owed[id] == key && KeyInvariant(s, key)
    ensures var s1, l := Apply(s, SetExpiry(at, id)), KeyLog(key, s.log);
            && s1.log == s.log && Ticking(s1, key, at + 60_000)
            && l != [] && s1.redis[key].count == l[|l| - 1].count
  {
    hide KeyLog, Windowed;
  }

  /** For a minute after the EXPIRE of its counter a client is let through for what is left of the limit, in every run,
      and every request beyond that is refused. */
  lemma RefusedForAMinute(before: seq<Event>, s: State<string>, at: int, id: nat, events: seq<Event>,
                          s': State<string>, b: Bucket, client: string, i: nat)
    requires IsRun(Empty, before, s) && Enabled(s, SetExpiry(at, id)) && s.owed[id] == Key(b, client)
    requires IsRun(Apply(s, SetExpiry(at, id)), events, s')
    requires forall k :: 0 <= k < |events| ==> events[k].at < at + 60_000
    requires |KeyLog(Key(b, client), s.log)| <= i < |KeyLog(Key(b, client), s'.log)|
    ensures var l, l' := KeyLog(Key(b, client), s.log), KeyLog(Key(b, client), s'.log);
            && l != [] && l <= l'
            && (l'[i].count <= b.Limit() <==> i < |l| + b.Limit() - l[|l| - 1].count)
  {
    var key := Key(b, client);
    RunKeepsKeyInvariant(Empty, before, s, key);
    hide *;
    StartsTicking(s, at, id, key);
    TickingRun(Apply(s, SetExpiry(at, id)), events, s', key, at + 60_000);
  }

  /* ---------- the bound is reached ---------- */

  lemma {:induction false} RunThenStep(s: State<string>, events: seq<Event>, s': State<string>, e: Event)
    requires IsRun(s, events, s') && Enabled(s', e)
    ensures IsRun(s, events + [e], Apply(s', e))
    decreases |events|
  {
    if events == [] {
      assert IsRun(Apply(s, e), [], Apply(s, e));
      assert [e][1..] == [] && events + [e] == [e];
    } else {
      RunThenStep(Apply(s, events[0]), events[1..], s', e);
      assert (events + [e])[1..] == events[1..] + [e];
    }
  }

  /** A run can be continued by n requests of the same client while its counter is alive. */
  lemma {:induction false} BurstRuns(s0: State<string>, prefix: seq<Event>, s: State<string>, n: nat, at: int,
                                     id: nat, b: Bucket, client: string, from: int, to: int)
    returns (events: seq<Event>, s': State<string>)
    requires IsRun(s0, prefix, s) && s.now <= at && from <= at < to && id !in s.owed
    requires IsLive(s.redis, Key(b, client), at)
    requires 0 < s.redis[Key(b, client)].count && s.redis[Key(b, client)].count + n <= b.Limit()
    ensures IsRun(s0, events, s') && s'.now <= at && s'.owed == s.owed
    ensures IsLive(s'.redis, Key(b, client), at)
    ensures s'.redis[Key(b, client)] == s.redis[Key(b, client)].(count := s.redis[Key(b, client)].count + n)
    ensures Admitted(KeyLog(Key(b, client), s'.log), b.Limit(), from, to)
              == Admitted(KeyLog(Key(b, client), s.log), b.Limit(), from, to) + n
  {
    hide *;
    if n == 0 {
      events, s' := prefix, s;
    } else {
      var before, mid := BurstRuns(s0, prefix, s, n - 1, at, id, b, client, from, to);
      OneMoreRequest(mid, at, id, b, client, from, to);
      var e := Arrive(at, id, b, client);
      RunThenStep(s0, before, mid, e);
      events, s' := before + [e], Apply(mid, e);
    }
  }

  /** One more request while the counter is alive and below the limit. */
  lemma OneMoreRequest(s: State<string>, at: int, id: nat, b: Bucket, client: string, from: int, to: int)
    requires s.now <= at && from <= at < to && id !in s.owed
    requires var key := Key(b, client); IsLive(s.redis, key, at) && 0 < s.redis[key].count < b.Limit()
    ensures var e, key := Arrive(at, id, b, client), Key(b, client);
            && Enabled(s, e)
            && var s' := Apply(s, e);
               && s'.now <= at && s'.owed == s.owed && IsLive(s'.redis, key, at)
               && s'.redis[key] == s.redis[key].(count := s.redis[key].count + 1)
               && Admitted(KeyLog(key, s'.log), b.Limit(), from, to)
                  == Admitted(KeyLog(key, s.log), b.Limit(), from, to) + 1
  {
    hide KeyLog, Admitted, Key;
    OneMore(s, at, id, Key(b, client), b.Limit(), from, to);
  }

  lemma OneMore(s: State<string>, at: int, id: nat, key: string, limit: nat, from: int, to: int)
    requires from <= at < to
    ensures var s' := Arrival(s, at, id, key);
            Admitted(KeyLog(key, s'.log), limit, from, to)
              == Admitted(KeyLog(key, s.log), limit, from, to) + if s'.redis[key].count <= limit then 1 else 0
  {
    var s' := Arrival(s, at, id, key);
    var entry := s'.log[|s.log|];
    ArrivalInLog(key, s.log, entry);
    var l := KeyLog(key, s.log);
    assert (l + [entry])[..|l|] == l;
  }

  /** One request at 0, and its expiry set. */
  lemma FirstRequest(b: Bucket, client: string) returns (events: seq<Event>, s: State<string>)
    ensures var key := Key(b, client);
            IsRun(Empty, events, s) && s == State(0, map[key := Counter(1, Some(WINDOW))], map[], [Entry(0, key, 1)])
  {
    hide Key;
    var first, expiry := Arrive(0, 0, b, client), SetExpiry(0, 0);
    assert IsRun(Empty, [], Empty);
    hide IsRun;
    RunThenStep(Empty, [], Empty, first);
    RunThenStep(Empty, [] + [first], Apply(Empty, first), expiry);
    events, s := [] + [first] + [expiry], Apply(Apply(Empty, first), expiry);
  }

  lemma OneEntry(key: string, limit: nat)
    ensures Admitted(KeyLog(key, [Entry(0, key, 1)]), limit, 1, 1 + WINDOW) == 0
  {
    ArrivalInLog(key, [], Entry(0, key, 1));
    assert [] + [Entry(0, key, 1)] == [Entry(0, key, 1)];
  }

  /** Then the rest of the window's quota at 1. */
  lemma FirstWindow(b: Bucket, client: string) returns (events: seq<Event>, s: State<string>)
    ensures IsRun(Empty, events, s) && s.now <= 1 && s.owed == map[]
    ensures var key := Key(b, client);
            && key in s.redis && s.redis[key] == Counter(b.Limit(), Some(WINDOW))
            && Admitted(KeyLog(key, s.log), b.Limit(), 1, 1 + WINDOW) == b.Limit() - 1
  {
    hide IsRun, KeyLog, Admitted, Key;
    var e2, s2 := FirstRequest(b, client);
    OneEntry(Key(b, client), b.Limit());
    events, s := BurstRuns(Empty, e2, s2, b.Limit() - 1, 1, 1, b, client, 1, 1 + WINDOW);
  }

  /** For every route family and client some run reaches the bound of MinuteBound. */
  lemma MinuteBoundIsReached(b: Bucket, client: string) returns (events: seq<Event>, s: State<string>)
    ensures IsRun(Empty, events, s)
    ensures Admitted(KeyLog(Key(b, client), s.log), b.Limit(), 1, 60_001) == 2 * b.Limit() - 1
  {
    hide IsRun, KeyLog, Admitted, Key;
    var restart := Arrive(WINDOW, 0, b, client);
    var e3, s3 := FirstWindow(b, client);
    RunThenStep(Empty, e3, s3, restart);
    OneMore(s3, WINDOW, 0, Key(b, client), b.Limit(), 1, 1 + WINDOW);
    events, s := BurstRuns(Empty, e3 + [restart], Apply(s3, restart), b.Limit() - 1, WINDOW, 1, b, client, 1,
                           1 + WINDOW);
  }
}
