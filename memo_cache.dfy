/**
 * The memoization caches of `05_composite/mapUseCase.js`.
 *
 * - `UserSystem` is the `userSystem` Map: per user, a table from function to
 *   an argument store. `Cached` memoizes forever; `CachedTimeBound`
 *   memoizes with a lazily checked expiry time.
 * - `SizeCache` is the global `cache` Map used by `SizeCached`: at most
 *   `MaxCacheSize` entries per function, least recently used evicted.
 * - `MruCache` is the global `cacheMru` Map used by `cachedMRU`: at most
 *   `MaxCacheSizeMru` entries per function, the last key in order evicted.
 *
 * User and function identities are ids. The memoized function is a
 * parameter `f` whose outcome is either a value or a thrown exception; the
 * out-parameter `calls` counts how often the method invoked it. The clock
 * (`Date.now()`) is passed in as numbers.
 */
module MemoCache {
  import opened Wrappers
  import opened JsMap
  import Seqs
  import Strings

  /** The identity of a user object (a key of `userSystem`). */
  type UserId = int

  /** The identity of a memoized function (a key of a per-user or global cache table). */
  type FnId = int

  /** What calling the memoized function does: return a value or throw. */
  datatype Computed<V> = Returned(value: V) | Threw

  /** What `cached`/`cachedTimeBound` give their caller: `null`, a value, or the exception going up. */
  datatype Reply<T> = Null | Value(value: T) | Raised

  /**
   * A value in a per-user argument store: `cached` stores the bare result,
   * `cachedTimeBound` the `{ value, expiry }` record. Both write to the same
   * store of the same function.
   */
  datatype Stored<V> = Plain(value: V) | Stamped(value: V, expiry: int)

  /** What `userSystem` holds for one user: its permissions and its cache table. */
  datatype UserData<A, V> = UserData(permissions: seq<string>, cache: map<FnId, Entries<A, Stored<V>>>)

  /** The argument store of `fn` in a cache table; an absent one reads as empty. */
  function StoreAt<A, V>(table: map<FnId, Entries<A, V>>, fn: FnId): Entries<A, V> {
    if fn in table then table[fn] else []
  }

  /** The argument store of `fn` for `user`; an absent one reads as empty. */
  function StoreOf<A, V>(users: map<UserId, UserData<A, V>>, user: UserId, fn: FnId): Entries<A, Stored<V>> {
    if user in users then StoreAt(users[user].cache, fn) else []
  }

  /** Every argument store has unique keys. */
  ghost predicate StoresValid<A, V>(table: map<FnId, Entries<A, V>>) {
    forall fn :: fn in table ==> JsMap.Valid(table[fn])
  }

  /**
   * `Date.now() < expiry` on a stored entry. A bare value stored by
   * `cached` has no `expiry` field; comparing with `undefined` is false, so
   * such an entry always counts as expired.
   */
  predicate Live<V>(entry: Stored<V>, now: int) {
    entry.Stamped? && now < entry.expiry
  }

  /** `user` has a live entry for `fn` at `arg`. */
  predicate LiveAt<A(==,!new), V>(users: map<UserId, UserData<A, V>>, user: UserId, fn: FnId, arg: A, now: int) {
    var store := StoreOf(users, user, fn);
    Has(store, arg) && Live(Get(store, arg), now)
  }

  /** Every user's argument stores have unique keys. */
  ghost predicate UsersValid<A, V>(users: map<UserId, UserData<A, V>>) {
    forall u :: u in users ==> StoresValid(users[u].cache)
  }

  /**
   * `userData.cache.set(fn, s)` for a registered user: that store becomes
   * `s`, the user keeps its permissions, no other store changes.
   */
  function PutStore<A, V>(users: map<UserId, UserData<A, V>>, user: UserId, fn: FnId, s: Entries<A, Stored<V>>)
    : (r: map<UserId, UserData<A, V>>)
    requires user in users
    ensures r.Keys == users.Keys && r[user].permissions == users[user].permissions
    ensures StoreOf(r, user, fn) == s
    ensures forall u, g :: (u != user || g != fn) ==> StoreOf(r, u, g) == StoreOf(users, u, g)
    ensures UsersValid(users) && JsMap.Valid(s) ==> UsersValid(r)
  {
    users[user := users[user].(cache := users[user].cache[fn := s])]
  }

  /** `cachedTimeBound`'s default time to live, in milliseconds. */
  const DefaultTtl: int := 5000

  /** The `userSystem` Map and the two memoizers that read it. */
  class UserSystem<A(==,!new), V> {
    var users: map<UserId, UserData<A, V>>

    ghost predicate Valid()
      reads this
    {
      UsersValid(users)
    }

    /** `new Map()`. */
    constructor()
      ensures Valid() && users == map[]
    {
      users := map[];
    }

    /** `userSystem.set(user, { permissions, cache: new Map() })`, which replaces any earlier record. */
    method Register(user: UserId, permissions: seq<string>)
      requires Valid()
      modifies this
      ensures Valid()
      ensures users == old(users)[user := UserData(permissions, map[])]
    {
      users := users[user := UserData(permissions, map[])];
    }

    /**
     * `cached(user, fn, arg)`. An unknown user yields `null` and changes
     * nothing. Otherwise the store of `fn` is created if missing; a hit
     * returns whatever is stored without calling `f`; a miss calls `f` once
     * and, if it returns, stores and returns the result; if it throws,
     * nothing is stored and the exception goes up.
     */
    method Cached(user: UserId, fn: FnId, arg: A, f: A -> Computed<V>) returns (r: Reply<Stored<V>>, calls: nat)
      requires Valid()
      modifies this
      ensures Valid()
      ensures user !in old(users) ==> r == Null && calls == 0 && users == old(users)
      ensures user in old(users) && Has(StoreOf(old(users), user, fn), arg) ==>
        r == Value(Get(StoreOf(old(users), user, fn), arg)) && calls == 0 && users == old(users)
      ensures user in old(users) && !Has(StoreOf(old(users), user, fn), arg) ==>
        var store := StoreOf(old(users), user, fn);
        calls == 1 &&
        match f(arg)
        case Threw => r == Raised && users == PutStore(old(users), user, fn, store)
        case Returned(v) => r == Value(Plain(v)) && users == PutStore(old(users), user, fn, Set(store, arg, Plain(v)))
      ensures forall u, g :: (u != user || g != fn) ==> StoreOf(users, u, g) == StoreOf(old(users), u, g)
    {
      if user !in users {
        return Null, 0;
      }
      var before := users;
      var fnCache := StoreOf(users, user, fn);
      if fn !in users[user].cache {
        users := PutStore(users, user, fn, fnCache);
      } else {
        var d := users[user];
        assert d.cache[fn := fnCache] == d.cache;
        assert d.(cache := d.cache[fn := fnCache]) == d;
        assert PutStore(users, user, fn, fnCache) == users;
      }
      if Has(fnCache, arg) {
        return Value(Get(fnCache, arg)), 0;
      }
      var result := f(arg);
      calls := 1;
      match result {
        case Threw =>
          r := Raised;
        case Returned(v) =>
          users := PutStore(before, user, fn, Set(fnCache, arg, Plain(v)));
          r := Value(Plain(v));
      }
    }

    /**
     * `cachedTimeBound(user, fn, arg, ttl)`. `now` is the clock read when the
     * entry is checked and `later` the clock read when the fresh result is
     * stored, after `f` has run. A live entry's value is returned and `f` is
     * not called. An entry that is not live is deleted before `f` runs, so it
     * stays deleted even when `f` throws; a returned result is stored last in
     * order with expiry `later + ttl`.
     */
    method CachedTimeBound(user: UserId, fn: FnId, arg: A, ttl: int, now: int, later: int, f: A -> Computed<V>)
      returns (r: Reply<V>, calls: nat)
      requires Valid()
      modifies this
      ensures Valid()
      ensures user !in old(users) ==> r == Null && calls == 0 && users == old(users)
      ensures user in old(users) ==> (calls == 0 <==> LiveAt(old(users), user, fn, arg, now))
      ensures user in old(users) && LiveAt(old(users), user, fn, arg, now) ==>
        r == Value(Get(StoreOf(old(users), user, fn), arg).value) && users == old(users)
      ensures user in old(users) && !LiveAt(old(users), user, fn, arg, now) ==>
        var pruned := Delete(StoreOf(old(users), user, fn), arg);
        calls == 1 &&
        match f(arg)
        case Threw => r == Raised && users == PutStore(old(users), user, fn, pruned)
        case Returned(v) => r == Value(v) && users == PutStore(old(users), user, fn, Set(pruned, arg, Stamped(v, later + ttl)))
      ensures forall u, g :: (u != user || g != fn) ==> StoreOf(users, u, g) == StoreOf(old(users), u, g)
    {
      if user !in users {
        return Null, 0;
      }
      var before := users;
      // The store of `fn`, created empty if missing.
      var fnCache := StoreOf(users, user, fn);
      if Has(fnCache, arg) && Live(Get(fnCache, arg), now) {
        return Value(Get(fnCache, arg).value), 0;
      }
      // Not live: the entry, if any, is deleted before `f` runs.
      DeleteValid(fnCache, arg);
      var pruned := Delete(fnCache, arg);
      users := PutStore(before, user, fn, pruned);
      var result := f(arg);
      calls := 1;
      match result {
        case Threw =>
          r := Raised;
        case Returned(v) =>
          users := PutStore(before, user, fn, Set(pruned, arg, Stamped(v, later + ttl)));
          r := Value(v);
      }
    }

    /**
     * `cachedTimeBound(user, fn, arg)` with the default time to live: every
     * case of `CachedTimeBound`, a fresh result expiring 5000 ms after the
     * clock reading that stores it.
     */
    method CachedTimeBoundDefault(user: UserId, fn: FnId, arg: A, now: int, later: int, f: A -> Computed<V>)
      returns (r: Reply<V>, calls: nat)
      requires Valid()
      modifies this
      ensures Valid()
      ensures user !in old(users) ==> r == Null && calls == 0 && users == old(users)
      ensures user in old(users) ==> (calls == 0 <==> LiveAt(old(users), user, fn, arg, now))
      ensures user in old(users) && LiveAt(old(users), user, fn, arg, now) ==>
        r == Value(Get(StoreOf(old(users), user, fn), arg).value) && users == old(users)
      ensures user in old(users) && !LiveAt(old(users), user, fn, arg, now) ==>
        var pruned := Delete(StoreOf(old(users), user, fn), arg);
        calls == 1 &&
        match f(arg)
        case Threw => r == Raised && users == PutStore(old(users), user, fn, pruned)
        case Returned(v) => r == Value(v) && users == PutStore(old(users), user, fn, Set(pruned, arg, Stamped(v, later + 5000)))
      ensures forall u, g :: (u != user || g != fn) ==> StoreOf(users, u, g) == StoreOf(old(users), u, g)
    {
      r, calls := CachedTimeBound(user, fn, arg, DefaultTtl, now, later, f);
    }
  }

  /** Every argument store of a global cache table has unique keys and at most `limit` entries. */
  ghost predicate Bounded<A, V>(table: map<FnId, Entries<A, V>>, limit: nat) {
    forall fn :: fn in table ==> JsMap.Valid(table[fn]) && |table[fn]| <= limit
  }

  /** Reading a store of a bounded table, and putting a store back into it. */
  lemma BoundedPut<A, V>(table: map<FnId, Entries<A, V>>, limit: nat, fn: FnId, s: Entries<A, V>)
    requires Bounded(table, limit)
    ensures JsMap.Valid(StoreAt(table, fn)) && |StoreAt(table, fn)| <= limit
    ensures JsMap.Valid(s) && |s| <= limit ==> Bounded(table[fn := s], limit)
  {
  }

  /** `MAX_CACHE_SIZE`. */
  const MaxCacheSize: nat := 3

  /** What a hit of `SizeCached` does to a store: `arg` is deleted and set again with its value. */
  function Refresh<A(==,!new), V>(store: Entries<A, V>, arg: A): (r: Entries<A, V>)
    requires JsMap.Valid(store) && Has(store, arg)
    ensures JsMap.Valid(r) && |r| == |store|
  {
    MoveToBack(store, arg);
    Set(Delete(store, arg), arg, Get(store, arg))
  }

  /** A refreshed key moves to the back of the order; every lookup stays the same. */
  lemma RefreshMovesToBack<A(!new), V>(store: Entries<A, V>, arg: A)
    requires JsMap.Valid(store) && Has(store, arg)
    ensures Keys(Refresh(store, arg)) == Seqs.RemoveAll(Keys(store), arg) + [arg]
    ensures forall k :: Lookup(Refresh(store, arg), k) == Lookup(store, k)
  {
    MoveToBack(store, arg);
  }

  /**
   * What a miss of `SizeCached` does to a store: `arg` is appended with
   * `v`; if the store then exceeds `MaxCacheSize`, its first key is deleted.
   */
  function Admit<A(==,!new), V>(store: Entries<A, V>, arg: A, v: V): (r: Entries<A, V>)
    requires JsMap.Valid(store) && !Has(store, arg) && |store| <= MaxCacheSize
    ensures JsMap.Valid(r) && |r| <= MaxCacheSize
  {
    var grown := Set(store, arg, v);
    if |grown| > MaxCacheSize then
      DeleteOldest(grown);
      Delete(grown, Keys(grown)[0])
    else
      grown
  }

  /**
   * An admitted key becomes the most recent one; only when the limit is
   * exceeded is the least recent key evicted.
   */
  lemma AdmitEvictsOldest<A(!new), V>(store: Entries<A, V>, arg: A, v: V)
    requires JsMap.Valid(store) && !Has(store, arg) && |store| <= MaxCacheSize
    ensures var grown := Keys(store) + [arg];
      Keys(Admit(store, arg, v)) == (if |grown| > MaxCacheSize then grown[1..] else grown)
  {
    var grown := Set(store, arg, v);
    if |grown| > MaxCacheSize {
      DeleteOldest(grown);
    }
  }

  /**
   * An admitted key keeps its value and is never the one evicted; every
   * other key keeps its value unless it was the least recent one and the
   * limit was exceeded.
   */
  lemma AdmitKeepsValues<A(!new), V>(store: Entries<A, V>, arg: A, v: V)
    requires JsMap.Valid(store) && !Has(store, arg) && |store| <= MaxCacheSize
    ensures Lookup(Admit(store, arg, v), arg) == Some(v)
    ensures var grown := Keys(store) + [arg];
      forall k :: k != arg ==>
        Lookup(Admit(store, arg, v), k) == if |grown| > MaxCacheSize && k == grown[0] then None else Lookup(store, k)
  {
    var grown := Set(store, arg, v);
    var ks := Keys(grown);
    if |grown| > MaxCacheSize {
      assert ks[|ks| - 1] == arg && 0 < |ks| - 1;
      assert ks[0] != arg;
    }
  }

  /** The global `cache` Map behind `SizeCached`. */
  class SizeCache<A(==,!new), V> {
    var cache: map<FnId, Entries<A, V>>

    /** Every argument store has unique keys and at most `MaxCacheSize` entries. */
    ghost predicate Valid()
      reads this
    {
      Bounded(cache, MaxCacheSize)
    }

    /** `new Map()`. */
    constructor()
      ensures Valid() && cache == map[]
    {
      cache := map[];
    }

    /**
     * `SizeCached(fn, arg)`. A hit refreshes `arg` and returns its value
     * without calling `f`. A miss calls `f` once and admits a returned
     * result; a throw leaves the store as it was (created empty if it was
     * missing). No other function's store changes.
     */
    method SizeCached(fn: FnId, arg: A, f: A -> Computed<V>) returns (r: Computed<V>, calls: nat)
      requires Valid()
      modifies this
      ensures Valid()
      ensures forall g :: g in cache <==> g in old(cache) || g == fn
      ensures forall g :: g != fn && g in cache ==> cache[g] == old(cache)[g]
      ensures Has(StoreAt(old(cache), fn), arg) ==>
        r == Returned(Get(StoreAt(old(cache), fn), arg)) && calls == 0 &&
        cache[fn] == Refresh(StoreAt(old(cache), fn), arg)
      ensures !Has(StoreAt(old(cache), fn), arg) ==>
        calls == 1 && r == f(arg) &&
        cache[fn] == match f(arg)
          case Threw => StoreAt(old(cache), fn)
          case Returned(v) => Admit(StoreAt(old(cache), fn), arg, v)
    {
      var fnCache := StoreAt(cache, fn);
      BoundedPut(cache, MaxCacheSize, fn, fnCache);
      cache := cache[fn := fnCache];
      if Has(fnCache, arg) {
        var value := Get(fnCache, arg);
        BoundedPut(cache, MaxCacheSize, fn, Refresh(fnCache, arg));
        cache := cache[fn := Refresh(fnCache, arg)];
        return Returned(value), 0;
      }
      r := f(arg);
      calls := 1;
      match r {
        case Threw =>
        case Returned(v) =>
          BoundedPut(cache, MaxCacheSize, fn, Admit(fnCache, arg, v));
          cache := cache[fn := Admit(fnCache, arg, v)];
      }
    }
  }

  /** `MAX_CACHE_SIZE_MRU`. */
  const MaxCacheSizeMru: nat := 2

  /** The global `cacheMru` Map behind `cachedMRU`. */
  class MruCache<A(==,!new), V> {
    var cacheMru: map<FnId, Entries<A, V>>

    /** Every argument store has unique keys and at most `MaxCacheSizeMru` entries. */
    ghost predicate Valid()
      reads this
    {
      Bounded(cacheMru, MaxCacheSizeMru)
    }

    /** `new Map()`. */
    constructor()
      ensures Valid() && cacheMru == map[]
    {
      cacheMru := map[];
    }

    /**
     * `cachedMRU(fn, arg)`. A hit returns the stored value and reorders
     * nothing. A miss calls `f` once and appends a returned result; when
     * that makes the store exceed `MaxCacheSizeMru`, the last key in order
     * is deleted, and that key is `arg` itself: a full store is left exactly
     * as it was, while the fresh result is still returned.
     */
    method CachedMru(fn: FnId, arg: A, f: A -> Computed<V>) returns (r: Computed<V>, calls: nat)
      requires Valid()
      modifies this
      ensures Valid()
      ensures forall g :: g in cacheMru <==> g in old(cacheMru) || g == fn
      ensures forall g :: g != fn && g in cacheMru ==> cacheMru[g] == old(cacheMru)[g]
      ensures Has(StoreAt(old(cacheMru), fn), arg) ==>
        r == Returned(Get(StoreAt(old(cacheMru), fn), arg)) && calls == 0 && cacheMru[fn] == StoreAt(old(cacheMru), fn)
      ensures !Has(StoreAt(old(cacheMru), fn), arg) ==> calls == 1 && r == f(arg)
      ensures !Has(StoreAt(old(cacheMru), fn), arg) ==>
        var store := StoreAt(old(cacheMru), fn);
        cacheMru[fn] == if f(arg).Returned? && |store| < MaxCacheSizeMru then Set(store, arg, f(arg).value) else store
    {
      var fnCache := StoreAt(cacheMru, fn);
      cacheMru := cacheMru[fn := fnCache];
      if Has(fnCache, arg) {
        return Returned(Get(fnCache, arg)), 0;
      }
      r := f(arg);
      calls := 1;
      match r {
        case Threw =>
        case Returned(v) =>
          var grown := Set(fnCache, arg, v);
          if |grown| > MaxCacheSizeMru {
            var keys := Keys(grown);
            var mostRecentKey := keys[|keys| - 1];
            DeleteJustSet(fnCache, arg, v);
            grown := Delete(grown, mostRecentKey);
          }
          cacheMru := cacheMru[fn := grown];
      }
    }
  }

  /** The identity of `fetchUserData`. */
  const FetchUserDataId: FnId := 0

  /** The identity of `fetchUserPermissions`. */
  const FetchUserPermissionsId: FnId := 1

  /** What the simulated API returns. */
  datatype ApiData = Profile(posts: seq<int>, friends: seq<string>) | Permissions(granted: seq<string>)

  /** `fetchUserData(userId)`: the same profile for every user. */
  function FetchUserData(userId: int): (r: Computed<ApiData>)
    ensures r == Returned(Profile([1, 2, 3], ["X", "Y"]))
  {
    Returned(Profile([1, 2, 3], ["X", "Y"]))
  }

  /** `fetchUserPermissions(userId)`: user 1 may read, everyone else may also write. */
  function FetchUserPermissions(userId: int): (r: Computed<ApiData>)
    ensures r.Returned? && r.value.Permissions?
    ensures "read" in r.value.granted && ("write" in r.value.granted <==> userId != 1)
  {
    Returned(Permissions(if userId == 1 then ["read"] else ["read", "write"]))
  }

  /** Two memoized calls in a row for one user: the first calls `f`, the second is a hit. */
  method CallTwice(system: UserSystem<int, ApiData>, user: UserId, fn: FnId, arg: int, f: int -> Computed<ApiData>)
    returns (first: Reply<Stored<ApiData>>, second: Reply<Stored<ApiData>>, calls: nat)
    requires system.Valid() && user in system.users && !Has(StoreOf(system.users, user, fn), arg) && f(arg).Returned?
    modifies system
    ensures system.Valid() && system.users.Keys == old(system.users.Keys)
    ensures first == second == Value(Plain(f(arg).value)) && calls == 1
    ensures forall u, g :: (u != user || g != fn) ==> StoreOf(system.users, u, g) == StoreOf(old(system.users), u, g)
    ensures Keys(StoreOf(system.users, user, fn)) == Keys(StoreOf(old(system.users), user, fn)) + [arg]
  {
    var c1, c2;
    first, c1 := system.Cached(user, fn, arg, f);
    second, c2 := system.Cached(user, fn, arg, f);
    calls := c1 + c2;
  }

  /**
   * The usage part of the script: Alice (user 1) and Bob (user 2) each call
   * `fetchUserData` and `fetchUserPermissions` twice through `cached`. The
   * API runs once per user and function, four times in all, and each second
   * call returns the cached result.
   */
  method UsageDemo() returns (alice: seq<Reply<Stored<ApiData>>>, bob: seq<Reply<Stored<ApiData>>>, calls: nat)
    ensures alice == [Value(Plain(Profile([1, 2, 3], ["X", "Y"]))), Value(Plain(Profile([1, 2, 3], ["X", "Y"]))),
                      Value(Plain(Permissions(["read"]))), Value(Plain(Permissions(["read"])))]
    ensures bob == [Value(Plain(Profile([1, 2, 3], ["X", "Y"]))), Value(Plain(Profile([1, 2, 3], ["X", "Y"]))),
                    Value(Plain(Permissions(["read", "write"]))), Value(Plain(Permissions(["read", "write"])))]
    ensures calls == 4
  {
    var system := new UserSystem<int, ApiData>();
    system.Register(1, ["read"]);
    system.Register(2, ["read", "write"]);
    var a1, a2, c1 := CallTwice(system, 1, FetchUserDataId, 1, FetchUserData);
    var a3, a4, c2 := CallTwice(system, 1, FetchUserPermissionsId, 1, FetchUserPermissions);
    var b1, b2, c3 := CallTwice(system, 2, FetchUserDataId, 2, FetchUserData);
    var b3, b4, c4 := CallTwice(system, 2, FetchUserPermissionsId, 2, FetchUserPermissions);
    alice, bob := [a1, a2, a3, a4], [b1, b2, b3, b4];
    calls := c1 + c2 + c3 + c4;
  }

  /**
   * The two `cachedTimeBound(user1, fetchUserData, 5)` calls of the script,
   * the second from a timer of 5000 ms set after the first returned. The
   * system is in the state the usage part leaves it: Alice's
   * `fetchUserData` store already holds the bare result for argument 1,
   * stored by `cached`. Clock readings `t0 <= t1` during the first call
   * and `t2 <= t3` during the second, with `t2` at least 5000 ms after
   * `t1`: argument 5 is new at the first call, and the entry that call
   * stores has expired by the second, so both calls run the API.
   */
  method TimeBoundDemo(t0: int, t1: int, t2: int, t3: int) returns (first: Reply<ApiData>, second: Reply<ApiData>, calls: nat)
    requires t0 <= t1 && t1 + DefaultTtl <= t2 <= t3
    ensures first == second == Value(Profile([1, 2, 3], ["X", "Y"]))
    ensures calls == 2
  {
    var system := new UserSystem<int, ApiData>();
    system.Register(1, ["read"]);
    system.Register(2, ["read", "write"]);
    var a1, a2, c0 := CallTwice(system, 1, FetchUserDataId, 1, FetchUserData);
    var profile := Profile([1, 2, 3], ["X", "Y"]);
    var before := StoreOf(system.users, 1, FetchUserDataId);
    assert Keys(before) == [1];
    assert 5 !in Keys(before);
    var c1, c2;
    first, c1 := system.CachedTimeBoundDefault(1, FetchUserDataId, 5, t0, t1, FetchUserData);
    assert first == Value(profile) && c1 == 1;
    var store := StoreOf(system.users, 1, FetchUserDataId);
    assert store == Set(Delete(before, 5), 5, Stamped(profile, t1 + DefaultTtl));
    assert Lookup(store, 5) == Some(Stamped(profile, t1 + DefaultTtl));
    second, c2 := system.CachedTimeBoundDefault(1, FetchUserDataId, 5, t2, t3, FetchUserData);
    calls := c1 + c2;
  }

  /** `searchDatabase(query)`. */
  function SearchDatabase(query: string): (r: Computed<string>)
    ensures r.Returned? && |r.value| > |query| && r.value[|r.value| - |query|..] == query
  {
    Returned("Results for " + query)
  }

  /** `SizeCached(searchDatabase, "banana")` on the empty global cache: a miss that runs the search. */
  method SizeCachedDemo() returns (r: Computed<string>, calls: nat)
    ensures r == Returned("Results for banana") && calls == 1
  {
    var cache := new SizeCache<string, string>();
    assert StoreAt(cache.cache, 0) == [];
    r, calls := cache.SizeCached(0, "banana", SearchDatabase);
    assert r == SearchDatabase("banana");
    assert "Results for " + "banana" == "Results for banana";
  }

  /** `fetchTransactionHistory(userId)`. */
  function FetchTransactionHistory(userId: int): (r: Computed<string>)
    ensures r.Returned? && r.value == "Transaction of user " + Strings.IntToString(userId)
  {
    Returned("Transaction of user " + Strings.IntToString(userId))
  }

  /** `cachedMRU(fetchTransactionHistory, 3)` on the empty MRU cache: a miss that runs the fetch and is kept. */
  method MruDemo() returns (r: Computed<string>, calls: nat)
    ensures r == Returned("Transaction of user " + Strings.IntToString(3)) && calls == 1
  {
    var cache := new MruCache<int, string>();
    r, calls := cache.CachedMru(0, 3, FetchTransactionHistory);
    assert Keys(cache.cacheMru[0]) == [3];
  }
}
