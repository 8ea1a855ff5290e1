/** The response cache of the API client (app.js, `cache`): a key -> entry
    map with per-entry expiry, enforced lazily by `get` and eagerly by one
    eviction timer per key. `Date.now()` is the parameter `now`; the host's
    timers are an explicit map from timer id to the eviction it will run,
    and `nextTimer` hands out the ids `setTimeout` returns. */
module TtlCache {
  import opened Text

  /** The default time to live, in milliseconds (`CONFIG.CACHE_TTL`). */
  const DefaultTtl: nat := 60000

  type TimerId = nat

  /** What `data` holds per key: the value, when it was stored, and for how
      long it stays visible. */
  datatype Entry<V> = Entry(value: V, timestamp: int, ttl: nat)

  /** A pending eviction timer: it deletes `key` when it fires, which the
      host does no earlier than `due`. */
  datatype Eviction<K> = Eviction(key: K, due: int)

  datatype CacheState<K, V> = CacheState(
    data: map<K, Entry<V>>,
    timeouts: map<K, TimerId>,
    timers: map<TimerId, Eviction<K>>,
    nextTimer: TimerId)

  function Empty<K, V>(): CacheState<K, V>
  {
    CacheState(map[], map[], map[], 0)
  }

  /** The timers that would evict `key`. */
  ghost function PendingFor<K, V>(s: CacheState<K, V>, key: K): set<TimerId>
  {
    set id | id in s.timers && s.timers[id].key == key
  }

  /** The cache invariant: `data` and `timeouts` have the same keys; each
      key's handle names a pending timer for that key, due when the entry
      expires; every pending timer is the current handle of its key, and
      was handed out earlier. */
  ghost predicate Inv<K, V>(s: CacheState<K, V>)
  {
    && s.data.Keys == s.timeouts.Keys
    && (forall k | k in s.timeouts ::
          && s.timeouts[k] in s.timers
          && s.timers[s.timeouts[k]] == Eviction(k, s.data[k].timestamp + s.data[k].ttl))
    && (forall id | id in s.timers ::
          && id < s.nextTimer
          && s.timers[id].key in s.timeouts
          && s.timeouts[s.timers[id].key] == id)
  }

  /** Under the invariant a cached key has exactly one pending eviction
      timer, and an absent key has none. */
  lemma OneTimerPerKey<K, V>(s: CacheState<K, V>, key: K)
    requires Inv(s)
    ensures key in s.data ==> PendingFor(s, key) == {s.timeouts[key]}
    ensures key !in s.data ==> PendingFor(s, key) == {}
  {
  }

  /** `cache.set(key, value, ttl)` at time `now`: store the entry, cancel the
      key's old timer if any, and arm a new one due at `now + ttl`. */
  function AfterSet<K, V>(s: CacheState<K, V>, key: K, value: V, ttl: nat, now: int): (r: CacheState<K, V>)
    requires Inv(s)
    ensures Inv(r)
    ensures r.data == s.data[key := Entry(value, now, ttl)]
    ensures PendingFor(r, key) == {r.timeouts[key]}
    ensures r.timers[r.timeouts[key]].due == now + ttl
    ensures forall k | k != key && k in s.timeouts :: k in r.timeouts && r.timeouts[k] == s.timeouts[k]
  {
    var t := s.nextTimer;
    var kept := if key in s.timeouts then s.timers - {s.timeouts[key]} else s.timers;
    var r := CacheState(s.data[key := Entry(value, now, ttl)], s.timeouts[key := t],
                        kept[t := Eviction(key, now + ttl)], t + 1);
    OneTimerPerKey(r, key);
    r
  }

  /** Whether an entry is past its time to live at `now` (strictly: an
      entry exactly `ttl` old is still fresh). */
  predicate Expired<V>(e: Entry<V>, now: int)
  {
    now - e.timestamp > e.ttl
  }

  /** `cache.get(key)` at time `now`: the value of a fresh entry; nothing for
      an absent key, and nothing for an expired entry, which is evicted
      together with its timer. */
  function Lookup<K, V>(s: CacheState<K, V>, key: K, now: int): (res: (Option<V>, CacheState<K, V>))
    requires Inv(s)
    ensures Inv(res.1)
    ensures res.0.Some? <==> key in s.data && !Expired(s.data[key], now)
    ensures res.0.Some? ==> res.0.value == s.data[key].value
    ensures key !in s.data ==> res.1 == s
    ensures res.0.Some? ==> res.1 == s
    ensures key in s.data && Expired(s.data[key], now) ==>
      && res.1.data == s.data - {key}
      && res.1.timeouts == s.timeouts - {key}
      && PendingFor(res.1, key) == {}
  {
    if key !in s.data then (None, s)
    else
      var item := s.data[key];
      if Expired(item, now) then
        var timers := if key in s.timeouts then s.timers - {s.timeouts[key]} else s.timers;
        var r := CacheState(s.data - {key}, s.timeouts - {key}, timers, s.nextTimer);
        OneTimerPerKey(r, key);
        (None, r)
      else
        (Some(item.value), s)
  }

  /** The eviction timer `id` fires: its key leaves both maps. */
  function AfterFire<K, V>(s: CacheState<K, V>, id: TimerId): (r: CacheState<K, V>)
    requires Inv(s) && id in s.timers
    ensures Inv(r)
    ensures r.data == s.data - {s.timers[id].key}
    ensures r.timeouts == s.timeouts - {s.timers[id].key}
    ensures r.data.Keys == r.timeouts.Keys
  {
    var key := s.timers[id].key;
    CacheState(s.data - {key}, s.timeouts - {key}, s.timers - {id}, s.nextTimer)
  }

  /** `cache.clear()`: drop every entry and cancel every timer. */
  function AfterClear<K, V>(s: CacheState<K, V>): (r: CacheState<K, V>)
    ensures Inv(r)
    ensures r.data == map[] && r.timers == map[]
  {
    CacheState(map[], map[], map[], s.nextTimer)
  }

  /** One thing that can happen to the cache, with the time it happens. */
  datatype Op<K, V> =
    | SetOp(key: K, value: V, ttl: nat, at: int)
    | GetOp(key: K, at: int)
    | FireOp(id: TimerId, at: int)
    | ClearOp

  /** Apply one operation; a timer that is not pending, or not yet due,
      does not fire. */
  function Apply<K, V>(s: CacheState<K, V>, op: Op<K, V>): (r: CacheState<K, V>)
    requires Inv(s)
    ensures Inv(r)
  {
    match op
    case SetOp(k, v, ttl, at) => AfterSet(s, k, v, ttl, at)
    case GetOp(k, at) => Lookup(s, k, at).1
    case FireOp(id, at) => if id in s.timers && at >= s.timers[id].due then AfterFire(s, id) else s
    case ClearOp => AfterClear(s)
  }

  function Run<K, V>(s: CacheState<K, V>, ops: seq<Op<K, V>>): (r: CacheState<K, V>)
    requires Inv(s)
    ensures Inv(r)
    decreases |ops|
  {
    if ops == [] then s else Run(Apply(s, ops[0]), ops[1..])
  }

  /** The operation neither stores under `key` nor clears the cache. */
  predicate Spares<K(==), V>(op: Op<K, V>, key: K)
  {
    match op
    case SetOp(k, _, _, _) => k != key
    case ClearOp => false
    case _ => true
  }

  /** Every operation spares `key` and happens before `deadline`. */
  predicate SparesBefore<K(==), V>(ops: seq<Op<K, V>>, key: K, deadline: int)
  {
    forall i | 0 <= i < |ops| :: Spares(ops[i], key) && (!ops[i].ClearOp? ==> ops[i].at < deadline)
  }

  /** An entry survives every operation that spares its key and happens
      before it expires: lazy eviction needs it to be stale, and its timer
      is not due yet. */
  lemma {:induction false} EntrySurvives<K, V>(s: CacheState<K, V>, key: K, ops: seq<Op<K, V>>)
    requires Inv(s) && key in s.data
    requires SparesBefore(ops, key, s.data[key].timestamp + s.data[key].ttl)
    ensures key in Run(s, ops).data && Run(s, ops).data[key] == s.data[key]
    decreases |ops|
  {
    if ops != [] {
      var e := s.data[key];
      var s' := Apply(s, ops[0]);
      assert Spares(ops[0], key);
      match ops[0] {
        case SetOp(k, v, ttl, at) =>
        case GetOp(k, at) =>
        case FireOp(id, at) =>
          if id in s.timers && at >= s.timers[id].due {
            assert s.timers[id].key != key;
          }
      }
      assert key in s'.data && s'.data[key] == e;
      assert SparesBefore(ops[1..], key, e.timestamp + e.ttl);
      EntrySurvives(s', key, ops[1..]);
    }
  }

  /** The hit window: after `set(key, v, ttl)` at time `t`, a `get(key)` at
      any `now` with `now - t <= ttl` returns `v`, whatever other keys do
      in between, as long as nothing else happens at or after `t + ttl`
      (where the eviction timer may race the read). */
  lemma HitWindow<K, V>(s: CacheState<K, V>, key: K, v: V, ttl: nat, t: int, ops: seq<Op<K, V>>, now: int)
    requires Inv(s)
    requires SparesBefore(ops, key, t + ttl)
    requires now - t <= ttl
    ensures Lookup(Run(AfterSet(s, key, v, ttl, t), ops), key, now).0 == Some(v)
  {
    EntrySurvives(AfterSet(s, key, v, ttl, t), key, ops);
  }

  /** At exactly `t + ttl` the outcome depends on which callback runs
      first: a read still hits, but once the eviction timer (due then) has
      fired it misses. */
  lemma ExpiryBoundaryRace<K, V>(s: CacheState<K, V>, key: K, v: V, ttl: nat, t: int)
    requires Inv(s)
    ensures var s1 := AfterSet(s, key, v, ttl, t);
      && Lookup(s1, key, t + ttl).0 == Some(v)
      && Lookup(Apply(s1, FireOp(s1.timeouts[key], t + ttl)), key, t + ttl).0 == None
  {
  }

  /** Under operations that never store under `key` nor clear the cache,
      the key's entry is either still the same one or gone. */
  lemma {:induction false} StaysGoneOrSame<K, V>(s: CacheState<K, V>, key: K, e: Entry<V>, ops: seq<Op<K, V>>)
    requires Inv(s)
    requires key in s.data ==> s.data[key] == e
    requires forall i | 0 <= i < |ops| :: Spares(ops[i], key)
    ensures key in Run(s, ops).data ==> Run(s, ops).data[key] == e
    decreases |ops|
  {
    if ops != [] {
      var s' := Apply(s, ops[0]);
      assert Spares(ops[0], key);
      assert key in s'.data ==> s'.data[key] == e;
      StaysGoneOrSame(s', key, e, ops[1..]);
    }
  }

  /** After the time to live has passed, a `get` misses: either the timer
      evicted the entry, or the read finds it stale. */
  lemma MissAfterTtl<K, V>(s: CacheState<K, V>, key: K, v: V, ttl: nat, t: int, ops: seq<Op<K, V>>, now: int)
    requires Inv(s)
    requires forall i | 0 <= i < |ops| :: Spares(ops[i], key)
    requires now - t > ttl
    ensures Lookup(Run(AfterSet(s, key, v, ttl, t), ops), key, now).0 == None
  {
    StaysGoneOrSame(AfterSet(s, key, v, ttl, t), key, Entry(v, t, ttl), ops);
  }

  /** The cache object. Its four fields are the state above; `timers` and
      `nextTimer` stand for the host's timer queue. */
  class Cache<K(==), V> {
    var data: map<K, Entry<V>>
    var timeouts: map<K, TimerId>
    var timers: map<TimerId, Eviction<K>>
    var nextTimer: TimerId

    function State(): CacheState<K, V>
      reads this
    {
      CacheState(data, timeouts, timers, nextTimer)
    }

    ghost predicate Valid()
      reads this
    {
      Inv(State())
    }

    constructor ()
      ensures Valid() && State() == Empty()
    {
      data, timeouts, timers, nextTimer := map[], map[], map[], 0;
    }

    method Set(key: K, value: V, ttl: nat, now: int)
      requires Valid()
      modifies this
      ensures Valid()
      ensures State() == AfterSet(old(State()), key, value, ttl, now)
    {
      data := data[key := Entry(value, now, ttl)];
      if key in timeouts {
        timers := timers - {timeouts[key]};
      }
      timeouts := timeouts[key := nextTimer];
      timers := timers[nextTimer := Eviction(key, now + ttl)];
      nextTimer := nextTimer + 1;
    }

    method Get(key: K, now: int) returns (res: Option<V>)
      requires Valid()
      modifies this
      ensures Valid()
      ensures (res, State()) == Lookup(old(State()), key, now)
    {
      if key !in data {
        return None;
      }
      var item := data[key];
      if now - item.timestamp > item.ttl {
        data := data - {key};
        if key in timeouts {
          timers := timers - {timeouts[key]};
          timeouts := timeouts - {key};
        }
        return None;
      }
      return Some(item.value);
    }

    /** The host runs the eviction callback of timer `id`, no earlier than
        it is due. */
    method FireEviction(id: TimerId, now: int)
      requires Valid() && id in timers && now >= timers[id].due
      modifies this
      ensures Valid()
      ensures State() == AfterFire(old(State()), id)
    {
      var key := timers[id].key;
      data := data - {key};
      timeouts := timeouts - {key};
      timers := timers - {id};
    }

    method Clear()
      requires Valid()
      modifies this
      ensures Valid()
      ensures State() == AfterClear(old(State()))
    {
      data := map[];
      timers := map[];
      timeouts := map[];
    }
  }
}
