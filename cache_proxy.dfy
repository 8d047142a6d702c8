/**
 * The caching proxies of `06_proxy`: `CacheProxy` over a `DataService`
 * (`solution2.js`) and the closure built by `creatCacheProxy` over
 * `fetchUserFromApi` (`solution.js`). Both keep a plain object from key to
 * data and treat a key as cached when its stored value is truthy. The
 * wrapped service is a function parameter; how often the proxy called it is
 * returned as `calls`.
 */
module CacheProxy {

  /** `DataService.fetchData(key)`. */
  function DataServiceFetch(key: string): (r: string)
    ensures |r| > |key| && r[|r| - |key|..] == key
  {
    "Data for " + key
  }

  /** `fetchUserFromApi(key)`. */
  function FetchUserFromApi(key: string): (r: string)
    ensures |r| > |key| && r[|r| - |key|..] == key
  {
    "Data with key:" + key
  }

  /** `if (cache[key])`: the key is present and its string is not empty. */
  predicate Truthy(cache: map<string, string>, key: string) {
    key in cache && cache[key] != ""
  }

  /** A proxy with its own private cache in front of `service`. */
  class Proxy {
    const service: string -> string
    var cache: map<string, string>

    /** Every cached value is what the service gives for its key. */
    ghost predicate Valid()
      reads this
    {
      forall k :: k in cache ==> cache[k] == service(k)
    }

    /** `new CacheProxy(dataService)`: the cache starts empty. */
    constructor(service: string -> string)
      ensures this.service == service && cache == map[]
      ensures Valid()
    {
      this.service := service;
      cache := map[];
    }

    /**
     * `fetchData(key)`. A truthy cached value is returned and the service is
     * not called; otherwise the service is called once and its result stored
     * under `key` and returned. Either way the result is the service's.
     */
    method FetchData(key: string) returns (r: string, calls: nat)
      requires Valid()
      modifies this
      ensures Valid()
      ensures r == service(key)
      ensures Truthy(old(cache), key) ==> calls == 0 && cache == old(cache)
      ensures !Truthy(old(cache), key) ==> calls == 1 && cache == old(cache)[key := r]
    {
      if Truthy(cache, key) {
        return cache[key], 0;
      }
      var data := service(key);
      cache := cache[key := data];
      return data, 1;
    }
  }

  /** `creatCacheProxy(dataService)`: each call builds a proxy with a fresh, empty, private cache. */
  method CreatCacheProxy(service: string -> string) returns (p: Proxy)
    ensures fresh(p) && p.service == service && p.cache == map[] && p.Valid()
  {
    p := new Proxy(service);
  }

  /** The demo of `solution2.js`: the first fetch of `"key1"` calls the service, the second does not. */
  method DataServiceDemo() returns (first: string, second: string, calls: nat)
    ensures first == second == "Data for key1"
    ensures calls == 1
  {
    var proxy := new Proxy(DataServiceFetch);
    var c1, c2;
    first, c1 := proxy.FetchData("key1");
    second, c2 := proxy.FetchData("key1");
    calls := c1 + c2;
  }

  /** The demo of `solution.js`: the same, over `fetchUserFromApi`. */
  method UserApiDemo() returns (first: string, second: string, calls: nat)
    ensures first == second == "Data with key:key1"
    ensures calls == 1
  {
    var proxy := CreatCacheProxy(FetchUserFromApi);
    var c1, c2;
    first, c1 := proxy.FetchData("key1");
    second, c2 := proxy.FetchData("key1");
    calls := c1 + c2;
  }
}
