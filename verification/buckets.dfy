/** Content-addressed buckets, bucket levels and the resolution of a target
    hash to a bucket object (`ApplyBucketsWork::getBucket`). */
module Buckets {

  /** A 256-bit bucket hash, treated as an opaque value. `ZeroHash` is the
      all-zero value, reserved for the empty bucket. Hex encoding is not
      modelled: two hashes are equal exactly when their hex texts are. */
  datatype Hash = ZeroHash | Digest(id: nat)

  /** A bucket is immutable and named by the hash of its contents. `chunks`
      is the number of bounded chunks an applicator needs to write all of its
      entries to the database. */
  datatype Bucket = Bucket(hash: Hash, chunks: nat)

  /** The canonical empty bucket: all-zero hash, nothing to apply. */
  const EmptyBucket := Bucket(ZeroHash, 0)

  /** One level of the live bucket list: the older `snap` and the younger
      `curr` bucket. */
  datatype BucketLevel = BucketLevel(snap: Bucket, curr: Bucket)

  /** One level of a target history-archive state: the hashes the level's
      snap and curr buckets must end up with. */
  datatype HashPair = HashPair(snap: Hash, curr: Hash)

  /** A hash-indexed collection of buckets: the pool handed to the engine, or
      the bucket manager's store. */
  type BucketMap = map<Hash, Bucket>

  /** Every bucket is filed under its own hash. */
  ghost predicate ContentAddressed(m: BucketMap) {
    forall h :: h in m ==> m[h].hash == h
  }

  /** Resolution of `h` cannot fail: `h` is the zero hash, or the pool or the
      store holds it. */
  predicate Resolvable(h: Hash, pool: BucketMap, store: BucketMap) {
    h == ZeroHash || h in pool || h in store
  }

  /** Resolves a target hash to a bucket. The zero hash gives a fresh empty
      bucket without any lookup; any other hash is taken from the pool when
      the pool has it, and from the store only on a pool miss. The C++ work
      item asserts that the result is non-null, so a hash found nowhere is
      ruled out by the precondition. */
  function GetBucket(h: Hash, pool: BucketMap, store: BucketMap): (b: Bucket)
    requires Resolvable(h, pool, store)
    ensures h == ZeroHash ==> b == EmptyBucket
    ensures h != ZeroHash && h in pool ==> b == pool[h]
    ensures h != ZeroHash && h !in pool ==> h in store && b == store[h]
    ensures ContentAddressed(pool) && ContentAddressed(store) ==> b.hash == h
  {
    if h == ZeroHash then
      EmptyBucket
    else if h in pool then
      pool[h]
    else
      store[h]
  }

  /** The zero hash never depends on what the pool or the store holds. */
  lemma ZeroHashIgnoresLookups(pool1: BucketMap, store1: BucketMap, pool2: BucketMap, store2: BucketMap)
    ensures GetBucket(ZeroHash, pool1, store1) == GetBucket(ZeroHash, pool2, store2) == EmptyBucket
    ensures GetBucket(ZeroHash, pool1, store1).chunks == 0
  {
  }

  /** A pool hit never depends on the store: the store is consulted only on a
      pool miss. */
  lemma PoolShadowsStore(h: Hash, pool: BucketMap, store1: BucketMap, store2: BucketMap)
    requires h in pool
    ensures GetBucket(h, pool, store1) == GetBucket(h, pool, store2)
  {
  }
}
