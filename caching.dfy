/** ImageCacheService: the cache-key preimage, the salted hasher that turns
    it into a key, and the shared key-value store with its fixed time to
    live. The store's clock is the `now` parameter (seconds). */
module Caching {
  import opened Base

  type Key = string

  /** The random salt a salted password hasher draws on each call. */
  type Salt = string

  /** `Hash::make`: a hash of the preimage under the salt drawn for the call. */
  type Hasher = (string, Salt) -> Key

  /** Seconds an entry stays in the store: one week. */
  const Ttl: nat := 604800

  datatype Entry = Entry(value: Bytes, expiresAt: int)

  /** The string handed to `Hash::make`: "img_{bucket}_{path}_{size}". */
  function KeyPreimage(bucket: string, path: string, size: string): (p: string)
    ensures |p| == |bucket| + |path| + |size| + 6
    ensures p[..4] == "img_" && p[4..4 + |bucket|] == bucket && p[4 + |bucket|] == '_'
    ensures p[5 + |bucket|..5 + |bucket| + |path|] == path && p[5 + |bucket| + |path|] == '_'
    ensures p[6 + |bucket| + |path|..] == size
  {
    "img_" + bucket + "_" + path + "_" + size
  }

  /** With bucket and path fixed, the preimage still tells the sizes apart. */
  lemma PreimageDeterminesSize(bucket: string, path: string, size1: string, size2: string)
    requires KeyPreimage(bucket, path, size1) == KeyPreimage(bucket, path, size2)
    ensures size1 == size2
  {
    var n := |bucket| + |path| + 6;
    assert KeyPreimage(bucket, path, size1)[n..] == size1;
    assert KeyPreimage(bucket, path, size2)[n..] == size2;
  }

  /** '_' may occur inside a bucket or a path, so different (bucket, path)
      pairs share a preimage: the preimage is not injective. */
  lemma PreimageNotInjective()
    ensures exists b1, p1, b2, p2 ::
      (b1, p1) != (b2, p2) && KeyPreimage(b1, p1, "") == KeyPreimage(b2, p2, "")
  {
    assert KeyPreimage("a_b", "c", "") == KeyPreimage("a", "b_c", "");
    assert ("a_b", "c") != ("a", "b_c") by { assert "a_b"[1] != "a"[0] || |"a_b"| != |"a"|; }
  }

  /** Moving an "_x" between the end of the bucket and the start of the path
      never changes the preimage. */
  lemma UnderscoreShift(bucket: string, x: string, path: string, size: string)
    ensures KeyPreimage(bucket + "_" + x, path, size) == KeyPreimage(bucket, x + "_" + path, size)
  {
  }

  /** A preimage with a size that does not end in '_' never equals an
      unsized one (whose default '' size leaves a final '_'). */
  lemma SizedDiffersFromUnsized(b1: string, p1: string, size: string, b2: string, p2: string)
    requires size != [] && size[|size| - 1] != '_'
    ensures KeyPreimage(b1, p1, size) != KeyPreimage(b2, p2, "")
  {
    var s1, s2 := KeyPreimage(b1, p1, size), KeyPreimage(b2, p2, "");
    assert s1[|s1| - 1] == size[|size| - 1];
    assert s2[|s2| - 1] == '_';
  }

  /** The hasher tells salts apart: bcrypt embeds the salt in its output. */
  ghost predicate SaltSensitive(hasher: Hasher) {
    forall p, s1, s2 :: s1 != s2 ==> hasher(p, s1) != hasher(p, s2)
  }

  /** A deterministic digest of the same preimage, the keying a cache needs
      so that equal requests meet again. */
  function StableCacheKey(digest: string -> Key, bucket: string, path: string, size: string): Key {
    digest(KeyPreimage(bucket, path, size))
  }

  /** Whether the store holds a value for key that has not expired at now. */
  predicate Live(entries: map<Key, Entry>, key: Key, now: int) {
    key in entries && now < entries[key].expiresAt
  }

  /** What the store's `get` returns: the live value, or null when missing or expired. */
  function Lookup(entries: map<Key, Entry>, key: Key, now: int): Option<Bytes> {
    if Live(entries, key, now) then Some(entries[key].value) else None
  }

  /** Expiry is a one-way cutoff: an entry live at some time was live at
      every earlier time, and once expired it stays expired. */
  lemma ExpiryIsCutoff(entries: map<Key, Entry>, key: Key, t0: int, t1: int)
    requires t0 <= t1
    ensures Live(entries, key, t1) ==> Live(entries, key, t0)
  {
  }

  /** The store after `put(key, value, Ttl)` at time now. */
  function Stored(entries: map<Key, Entry>, key: Key, value: Bytes, now: int): (r: map<Key, Entry>)
    ensures forall t | now <= t < now + Ttl :: Lookup(r, key, t) == Some(value)
    ensures forall t | t >= now + Ttl :: Lookup(r, key, t) == None
    ensures forall k, t | k != key :: Lookup(r, k, t) == Lookup(entries, k, t)
  {
    entries[key := Entry(value, now + Ttl)]
  }

  /** The cache service over the one shared 'redis' store. */
  class ImageCacheService {
    const hasher: Hasher
    var entries: map<Key, Entry>

    constructor(hasher: Hasher, entries: map<Key, Entry>)
      ensures this.hasher == hasher && this.entries == entries
    {
      this.hasher := hasher;
      this.entries := entries;
    }

    /** `getCacheKey`, with the salt the hasher draws made explicit: under a
        salt-sensitive hasher, the same request hashed with any other salt
        gets another key. */
    function GetCacheKey(bucket: string, path: string, size: string, salt: Salt): (k: Key)
      ensures SaltSensitive(hasher) ==>
        forall other: Salt | other != salt :: hasher(KeyPreimage(bucket, path, size), other) != k
    {
      hasher(KeyPreimage(bucket, path, size), salt)
    }

    method Get(key: Key, now: int) returns (v: Option<Bytes>)
      ensures v == Lookup(entries, key, now)
    {
      v := if key in entries && now < entries[key].expiresAt then Some(entries[key].value) else None;
    }

    method Put(key: Key, value: Bytes, now: int)
      modifies this
      ensures entries == Stored(old(entries), key, value, now)
    {
      entries := entries[key := Entry(value, now + Ttl)];
    }

    method Has(key: Key, now: int) returns (b: bool)
      ensures b == Live(entries, key, now)
    {
      b := key in entries && now < entries[key].expiresAt;
    }
  }
}
