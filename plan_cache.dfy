/**
 * Plan-cache identity: the explain results of shape-equivalent queries must
 * report the same `queryHash` and `planCacheKey`. The tokens are opaque and
 * only ever compared for equality.
 */
module PlanCache {
  import opened Exceptions
  import opened PlanTree

  /** Every token equals `first`: Python's `all(t == first for t in tokens)`, evaluated left to right. */
  function AllEqualTo(tokens: seq<string>, first: string): (b: bool)
    ensures b <==> forall i :: 0 <= i < |tokens| ==> tokens[i] == first
  {
    if tokens == [] then true
    else tokens[0] == first && AllEqualTo(tokens[1..], first)
  }

  /** Every two tokens are equal. */
  ghost predicate AllPairsEqual(tokens: seq<string>) {
    forall i, j :: 0 <= i < |tokens| && 0 <= j < |tokens| ==> tokens[i] == tokens[j]
  }

  /** Comparing with the first token is the same as comparing every pair. */
  lemma AllEqualToFirstIffPairwise(tokens: seq<string>)
    requires |tokens| > 0
    ensures AllEqualTo(tokens, tokens[0]) <==> AllPairsEqual(tokens)
  {
  }

  /**
   * test_query_shape_cache_reuse, lines 277-284: take the first key and the
   * first hash (an empty list raises `IndexError`), then assert that all keys,
   * and then all hashes, equal them.
   */
  function ShapeCacheCheck(keys: seq<string>, hashes: seq<string>): (v: Verdict)
    ensures |keys| > 0 && |hashes| > 0 ==>
      (v.Pass? <==> AllPairsEqual(keys) && AllPairsEqual(hashes))
    ensures keys == [] || hashes == [] ==> v == Raises(IndexError)
    ensures v.Raises? && |keys| > 0 && |hashes| > 0 ==> v.error == AssertionError
  {
    if keys == [] || hashes == [] then Raises(IndexError)
    else
      AllEqualToFirstIffPairwise(keys);
      AllEqualToFirstIffPairwise(hashes);
      Then(Assert(AllEqualTo(keys, keys[0])), Assert(AllEqualTo(hashes, hashes[0])))
  }

  /** A single observation is trivially stable. */
  lemma SingleObservationPasses(key: string, hash: string)
    ensures ShapeCacheCheck([key], [hash]) == Pass
  {
  }

  /**
   * Lines 265-272: one explain per query; append its `planCacheKey` and its
   * `queryHash`, in query order.
   */
  method CollectCacheIds(explains: seq<QueryPlanner>) returns (keys: seq<string>, hashes: seq<string>)
    ensures |keys| == |explains| && |hashes| == |explains|
    ensures forall i :: 0 <= i < |explains| ==>
      keys[i] == explains[i].planCacheKey && hashes[i] == explains[i].queryHash
  {
    keys, hashes := [], [];
    for i := 0 to |explains|
      invariant |keys| == i && |hashes| == i
      invariant forall k :: 0 <= k < i ==>
        keys[k] == explains[k].planCacheKey && hashes[k] == explains[k].queryHash
    {
      keys := keys + [explains[i].planCacheKey];
      hashes := hashes + [explains[i].queryHash];
    }
  }

  /** test_query_shape_cache_reuse from the explain results to the verdict. */
  method ShapeCacheReuse(explains: seq<QueryPlanner>) returns (v: Verdict)
    ensures explains == [] ==> v == Raises(IndexError)
    ensures explains != [] ==> (v.Pass? <==>
      forall i, j :: 0 <= i < |explains| && 0 <= j < |explains| ==>
        explains[i].planCacheKey == explains[j].planCacheKey &&
        explains[i].queryHash == explains[j].queryHash)
  {
    var keys, hashes := CollectCacheIds(explains);
    v := ShapeCacheCheck(keys, hashes);
    if explains != [] {
      if v.Pass? {
        forall i, j | 0 <= i < |explains| && 0 <= j < |explains|
          ensures explains[i].planCacheKey == explains[j].planCacheKey
          ensures explains[i].queryHash == explains[j].queryHash
        {
          assert keys[i] == keys[j] && hashes[i] == hashes[j];
        }
      } else {
        assert !(AllPairsEqual(keys) && AllPairsEqual(hashes));
      }
    }
  }

  /**
   * test_query_plan_caching, lines 148-172: the second run must repeat the
   * first one's query hash (checked first) and plan cache key.
   */
  function TwoRunCacheCheck(first: QueryPlanner, second: QueryPlanner): (v: Verdict)
    ensures v.Pass? <==> first.queryHash == second.queryHash && first.planCacheKey == second.planCacheKey
    ensures v.Raises? ==> v.error == AssertionError
  {
    Then(Assert(first.queryHash == second.queryHash), Assert(first.planCacheKey == second.planCacheKey))
  }

  lemma PairOfTwo(a: string, b: string)
    ensures AllPairsEqual([a, b]) <==> a == b
  {
    var s := [a, b];
    if a == b {
      assert forall i :: 0 <= i < |s| ==> s[i] == a;
    } else {
      assert s[0] != s[1];
    }
  }

  /** The two-run check is the shape check on a list of two observations. */
  lemma TwoRunIsShapeCheckOfTwo(first: QueryPlanner, second: QueryPlanner)
    ensures TwoRunCacheCheck(first, second) ==
      ShapeCacheCheck([first.planCacheKey, second.planCacheKey], [first.queryHash, second.queryHash])
  {
    var keys := [first.planCacheKey, second.planCacheKey];
    var hashes := [first.queryHash, second.queryHash];
    PairOfTwo(first.planCacheKey, second.planCacheKey);
    PairOfTwo(first.queryHash, second.queryHash);
  }
}
