/** The per-owner list cache: key `todos_<uid>`, value the owner's list,
    written with a 300-second expiry. Time is a logical clock in milliseconds. */
module Cache {
  import opened Common
  import opened TodoModel

  /** The `EX: 300` expiry, in milliseconds. */
  const CacheTtl: int := 300 * 1000

  const KeyPrefix: string := "todos_"

  /** `todos_${userId}`. */
  function CacheKey(uid: string): (k: string)
    ensures |k| == |KeyPrefix| + |uid| && k[..|KeyPrefix|] == KeyPrefix && k[|KeyPrefix|..] == uid
  {
    KeyPrefix + uid
  }

  /** Distinct owners never share a cache entry. */
  lemma CacheKeyInjective(a: string, b: string)
    requires a != b
    ensures CacheKey(a) != CacheKey(b)
  {
    assert CacheKey(a)[|KeyPrefix|..] == a;
  }

  datatype Entry = Entry(todos: seq<Todo>, expiresAt: int)

  type Store = map<string, Entry>

  /** `redis.get(key)` at time `now`: the stored list while it has not expired.
      An empty list is a hit too: `[]` is truthy in JavaScript. */
  function Lookup(cache: Store, key: string, now: int): (r: Option<seq<Todo>>)
    ensures r.Some? <==> key in cache && now < cache[key].expiresAt
    ensures r.Some? ==> r.value == cache[key].todos
  {
    if key in cache && now < cache[key].expiresAt then Some(cache[key].todos) else None
  }

  /** `redis.set(key, todos, { EX: 300 })` at time `now`. */
  function Put(cache: Store, key: string, todos: seq<Todo>, now: int): (r: Store)
    ensures key in r && r[key] == Entry(todos, now + CacheTtl)
    ensures Lookup(r, key, now) == Some(todos) && Lookup(r, key, now + CacheTtl) == None
    ensures forall k :: k != key ==> (k in r <==> k in cache) && (k in r ==> r[k] == cache[k])
  {
    cache[key := Entry(todos, now + CacheTtl)]
  }

  /** `redis.del(key)`. */
  function Evict(cache: Store, key: string): (r: Store)
    ensures key !in r
    ensures forall k :: k != key ==> (k in r <==> k in cache) && (k in r ==> r[k] == cache[k])
  {
    cache - {key}
  }
}
