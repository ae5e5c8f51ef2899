/** The decrypted-secret cache: `DecryptedValues`, `DecryptedValue` and
    `ClearDSDecryptionCache`. Each call is one atomic step under the cache's
    lock, so the cache is passed in and the updated cache handed back. */
module Decryption {
  import opened Outcomes
  import opened Cache
  import opened Models

  type Decrypted = map<string, string>

  type DecryptionCache = Cache<Decrypted>

  /** A value read through the decryption cache, the cache afterwards, and
      whether the decryptor had to run. */
  datatype Lookup<+T> = Lookup(value: T, cache: DecryptionCache, decrypted: bool)

  /** Cached decrypted secure JSON data of `ds`. */
  function DecryptedValues(ds: DataSource, decrypt: Decryptor, c: DecryptionCache): (r: Lookup<Decrypted>)
    ensures r.decrypted <==> !Fresh(c, ds.id, ds.updated)
    ensures !r.decrypted ==> r.value == c[ds.id].value && r.cache == c
    ensures r.decrypted ==> r.value == decrypt(ds.secureJsonData)
    ensures Fresh(r.cache, ds.id, ds.updated) && r.cache[ds.id].value == r.value
    ensures forall id :: id != ds.id ==> SameEntry(c, r.cache, id)
  {
    if Fresh(c, ds.id, ds.updated) then
      Lookup(c[ds.id].value, c, false)
    else
      var values := decrypt(ds.secureJsonData);
      Lookup(values, Store(c, ds.id, ds.updated, values), true)
  }

  /** One key of the cached decrypted data; `None` stands for `exists == false`. */
  function DecryptedValue(ds: DataSource, key: string, decrypt: Decryptor, c: DecryptionCache): (r: Lookup<Option<string>>)
    ensures var all := DecryptedValues(ds, decrypt, c);
      && r.cache == all.cache
      && r.decrypted == all.decrypted
      && (r.value.Some? <==> key in all.value)
      && (r.value.Some? ==> r.value.value == all.value[key])
  {
    var all := DecryptedValues(ds, decrypt, c);
    Lookup(if key in all.value then Some(all.value[key]) else None, all.cache, all.decrypted)
  }

  /** Drops every entry at once. */
  function ClearDSDecryptionCache(): (c: DecryptionCache)
    ensures forall id, updated :: !Fresh(c, id, updated)
  {
    map[]
  }

  /** The cache holds, for `ds`'s current timestamp, nothing but what the
      decryptor yields for `ds`'s secure data. */
  ghost predicate Coherent(c: DecryptionCache, ds: DataSource, decrypt: Decryptor)
  {
    Fresh(c, ds.id, ds.updated) ==> c[ds.id].value == decrypt(ds.secureJsonData)
  }

  /** Caching is transparent: a coherent cache yields exactly the decrypted
      data and stays coherent. */
  lemma DecryptedValuesSound(ds: DataSource, decrypt: Decryptor, c: DecryptionCache)
    requires Coherent(c, ds, decrypt)
    ensures DecryptedValues(ds, decrypt, c).value == decrypt(ds.secureJsonData)
    ensures Coherent(DecryptedValues(ds, decrypt, c).cache, ds, decrypt)
  {
  }

  /** A second call with the same timestamp is a hit: no decryption, the same
      map, the cache unchanged. */
  lemma DecryptedValuesIdempotent(ds: DataSource, decrypt: Decryptor, c: DecryptionCache)
    ensures var first := DecryptedValues(ds, decrypt, c);
      var second := DecryptedValues(ds, decrypt, first.cache);
      && !second.decrypted
      && second.value == first.value
      && second.cache == first.cache
  {
  }

  /** A changed timestamp forces the decryptor to run again and replaces the
      entry, even if the stored map would have been identical. */
  lemma StaleEntryDecryptsAgain(ds: DataSource, decrypt: Decryptor, c: DecryptionCache)
    requires ds.id in c && c[ds.id].updated != ds.updated
    ensures DecryptedValues(ds, decrypt, c).decrypted
    ensures DecryptedValues(ds, decrypt, c).cache[ds.id] == Entry(ds.updated, decrypt(ds.secureJsonData))
  {
  }

  /** After a clear, the next lookup for any data source decrypts afresh. */
  lemma ClearForcesDecrypt(ds: DataSource, decrypt: Decryptor, key: string)
    ensures DecryptedValues(ds, decrypt, ClearDSDecryptionCache()).decrypted
    ensures DecryptedValue(ds, key, decrypt, ClearDSDecryptionCache()).decrypted
    ensures DecryptedValue(ds, key, decrypt, ClearDSDecryptionCache()).value
      == (if key in decrypt(ds.secureJsonData) then Some(decrypt(ds.secureJsonData)[key]) else None)
  {
  }
}
