/** The key/value cache carried between forward passes. A tensor is modelled
    as the sequence of its slices along the sequence axis (dimension 2 of a
    `[batch, heads, seq, head_dim]` tensor); `T` stands for one slice, whose
    other axes are left abstract. A layer's cache is a list of tensors (its
    keys and values) and a model's cache is one such list per layer. */
module KVCache {
  import opened Py

  type Tensor<T> = seq<T>
  type LayerCache<T> = seq<Tensor<T>>
  type Cache<T> = seq<LayerCache<T>>

  /** `kv[:, :, -trim:, :]`: Python's negative slice along the sequence axis.
      A positive `trim` keeps the newest `min(trim, L)` positions, zero keeps
      everything (`-0:` is `0:`), and a negative `trim` drops the oldest
      `-trim` positions. */
  function TrimTensor<T>(kv: Tensor<T>, trim: int): (r: Tensor<T>)
    ensures trim > 0 ==> |r| == Min(trim, |kv|) && r == kv[|kv| - Min(trim, |kv|)..]
    ensures trim == 0 ==> r == kv
    ensures trim < 0 ==> r == kv[Min(-trim, |kv|)..]
  {
    Suffix(kv, -trim)
  }

  /** `trim_cache`: trims every tensor of one layer's cache; `None` returns
      the cache itself. */
  function TrimCache<T>(cache: LayerCache<T>, trim: Option<int>): (r: LayerCache<T>)
    ensures |r| == |cache|
    ensures trim.None? ==> r == cache
    ensures trim == Some(0) ==> r == cache
    ensures trim.Some? && trim.value > 0 ==>
      forall k :: 0 <= k < |r| ==>
        |r[k]| == Min(trim.value, |cache[k]|) && r[k] == cache[k][|cache[k]| - |r[k]|..]
    ensures trim.Some? ==> forall k :: 0 <= k < |r| ==> r[k] == TrimTensor(cache[k], trim.value)
  {
    match trim
    case None => cache
    case Some(t) => seq(|cache|, k requires 0 <= k < |cache| => TrimTensor(cache[k], t))
  }

  /** `cache_to`: the slicing and structure of a device transfer. `None` stays
      `None`; otherwise every tensor of every layer is trimmed and the number
      and order of layers and tensors is kept. */
  function CacheTo<T>(cache: Option<Cache<T>>, trim: int): (r: Option<Cache<T>>)
    ensures r.Some? <==> cache.Some?
    ensures cache.Some? ==> |r.value| == |cache.value|
    ensures cache.Some? ==> forall l :: 0 <= l < |cache.value| ==>
      |r.value[l]| == |cache.value[l]| &&
      forall k :: 0 <= k < |cache.value[l]| ==> r.value[l][k] == TrimTensor(cache.value[l][k], trim)
  {
    match cache
    case None => None
    case Some(c) =>
      Some(seq(|c|, l requires 0 <= l < |c| =>
        seq(|c[l]|, k requires 0 <= k < |c[l]| => TrimTensor(c[l][k], trim))))
  }

  /** Every tensor of a cache has at most `n` positions. */
  ghost predicate Bounded<T>(cache: Cache<T>, n: int) {
    forall l, k :: 0 <= l < |cache| && 0 <= k < |cache[l]| ==> |cache[l][k]| <= n
  }

  /** Trimming with the default `trim = 0` is the identity on the cache, so the
      trainer's host/device round trips never lose positions. */
  lemma CacheToZeroIsIdentity<T>(cache: Option<Cache<T>>)
    ensures CacheTo(cache, 0) == cache
  {
    if cache.Some? {
      var c, r := cache.value, CacheTo(cache, 0).value;
      assert |r| == |c|;
      forall l | 0 <= l < |c|
        ensures r[l] == c[l]
      {
        assert |r[l]| == |c[l]|;
        forall k | 0 <= k < |c[l]|
          ensures r[l][k] == c[l][k]
        {
          assert r[l][k] == TrimTensor(c[l][k], 0);
        }
      }
      assert r == c;
    }
  }

  /** A positive trim bounds every tensor by the trim size and keeps the
      newest positions of each. */
  lemma CacheToBounds<T>(cache: Cache<T>, trim: int)
    requires trim > 0
    ensures Bounded(CacheTo(Some(cache), trim).value, trim)
  {
  }

  /** Trimming twice by positive sizes equals trimming once by the smaller. */
  lemma TrimTensorTwice<T>(kv: Tensor<T>, a: int, b: int)
    requires a > 0 && b > 0
    ensures TrimTensor(TrimTensor(kv, a), b) == TrimTensor(kv, Min(a, b))
  {
    var n := |kv|;
    var m1 := Min(a, n);
    var m2 := Min(b, m1);
    assert Min(Min(a, b), n) == m2;
    calc {
      TrimTensor(TrimTensor(kv, a), b);
      kv[n - m1..][m1 - m2..];
      { SuffixOfSuffix(kv, n - m1, m1 - m2); }
      kv[n - m2..];
      TrimTensor(kv, Min(a, b));
    }
  }

  lemma SuffixOfSuffix<T>(s: seq<T>, i: nat, j: nat)
    requires i + j <= |s|
    ensures s[i..][j..] == s[i + j..]
  {
  }

  /** A layer that is already trimmed to `t` is unchanged by trimming to `t`
      again: the trainer's re-trim of a returned cache is idempotent. */
  lemma TrimCacheIdempotent<T>(cache: LayerCache<T>, trim: Option<int>)
    requires trim.None? || trim.value >= 0
    ensures TrimCache(TrimCache(cache, trim), trim) == TrimCache(cache, trim)
  {
    if trim.Some? && trim.value > 0 {
      var once := TrimCache(cache, trim);
      var twice := TrimCache(once, trim);
      forall k | 0 <= k < |cache|
        ensures twice[k] == once[k]
      {
        TrimTensorTwice(cache[k], trim.value, trim.value);
      }
    }
  }
}
