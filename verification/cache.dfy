/** A cache keyed by data-source id whose entries remember the data source's
    `Updated` timestamp at the time they were built. An entry is reused only
    while that timestamp still matches; otherwise it is replaced wholesale. */
module Cache {

  datatype Entry<T> = Entry(updated: int, value: T)

  type Cache<T> = map<int, Entry<T>>

  /** The entry for `id` may be reused for a data source last updated at `updated`. */
  predicate Fresh<T>(c: Cache<T>, id: int, updated: int)
  {
    id in c && c[id].updated == updated
  }

  /** `id` is absent from both caches or maps to the same entry in both. */
  ghost predicate SameEntry<T>(c: Cache<T>, c': Cache<T>, id: int)
  {
    (id in c <==> id in c') && (id in c ==> c[id] == c'[id])
  }

  /** `cache[id] = entry{updated, value}`. */
  function Store<T>(c: Cache<T>, id: int, updated: int, v: T): (c': Cache<T>)
    ensures Fresh(c', id, updated) && c'[id].value == v
    ensures forall other :: other != id ==> SameEntry(c, c', other)
    ensures c'.Keys == c.Keys + {id}
  {
    c[id := Entry(updated, v)]
  }
}
