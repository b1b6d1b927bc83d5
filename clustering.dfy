/** Grouping points by the cluster a density-based clusterer assigned them.
    The clusterer itself is outside the model: its classifications are an input. */
module Clustering {

  /** A clusterer's verdict on one point. */
  datatype Classification = Core(cluster: nat) | Edge(cluster: nat) | Noise

  /** Where a point ends up: the bucket of its cluster, or the unclustered list. */
  datatype Group = Cluster(id: nat) | Unclustered

  /** Only core points join their cluster's bucket; edge and noise points are unclustered. */
  function GroupOf(c: Classification): (g: Group)
    ensures g.Cluster? <==> c.Core?
    ensures g.Cluster? ==> g.id == c.cluster
    ensures c.Edge? ==> g == Unclustered
  {
    if c.Core? then Cluster(c.cluster) else Unclustered
  }

  function Min(a: nat, b: nat): nat {
    if a <= b then a else b
  }

  /** The points among the first `n` zipped pairs whose classification puts
      them in group `g`, in input order. */
  function Members<T>(points: seq<T>, classes: seq<Classification>, n: nat, g: Group): seq<T>
    requires n <= |points| && n <= |classes|
  {
    if n == 0 then []
    else Members(points, classes, n - 1, g) + (if GroupOf(classes[n - 1]) == g then [points[n - 1]] else [])
  }

  /** Some of the first `n` classifications is `Core(id)`. */
  predicate HasCore(classes: seq<Classification>, n: nat, id: nat)
    requires n <= |classes|
  {
    exists k :: 0 <= k < n && classes[k] == Core(id)
  }

  /** A cluster's bucket is non-empty exactly when some point is a core point of it. */
  lemma {:induction false} MembersNonEmpty<T>(points: seq<T>, classes: seq<Classification>, n: nat, id: nat)
    requires n <= |points| && n <= |classes|
    ensures Members(points, classes, n, Cluster(id)) != [] <==> HasCore(classes, n, id)
  {
    if n > 0 {
      MembersNonEmpty(points, classes, n - 1, id);
      if HasCore(classes, n, id) && !HasCore(classes, n - 1, id) {
        assert classes[n - 1] == Core(id);
      }
    }
  }

  function Flatten<T>(buckets: seq<seq<T>>): seq<T> {
    if buckets == [] then [] else buckets[0] + Flatten(buckets[1..])
  }

  predicate Distinct(ids: seq<nat>) {
    forall a, b :: 0 <= a < b < |ids| ==> ids[a] != ids[b]
  }

  /** The buckets of the listed clusters, one after another. */
  function Gather<T>(points: seq<T>, classes: seq<Classification>, n: nat, ids: seq<nat>): seq<T>
    requires n <= |points| && n <= |classes|
  {
    if ids == [] then [] else Members(points, classes, n, Cluster(ids[0])) + Gather(points, classes, n, ids[1..])
  }

  /** One more zipped pair adds its point to at most one listed bucket. */
  lemma {:induction false} GatherStep<T>(points: seq<T>, classes: seq<Classification>, n: nat, ids: seq<nat>)
    requires 1 <= n <= |points| && n <= |classes| && Distinct(ids)
    ensures multiset(Gather(points, classes, n, ids)) ==
      multiset(Gather(points, classes, n - 1, ids)) +
      (if classes[n - 1].Core? && classes[n - 1].cluster in ids then multiset{points[n - 1]} else multiset{})
  {
    if ids != [] {
      assert Distinct(ids[1..]);
      GatherStep(points, classes, n, ids[1..]);
      if classes[n - 1].Core? && classes[n - 1].cluster == ids[0] {
        assert classes[n - 1].cluster !in ids[1..];
      }
    }
  }

  /** Each of the first `n` points lands in exactly one group: together the
      listed buckets and the unclustered list hold every point once, provided
      the list names every cluster with a core point, each once. */
  lemma {:induction false} GroupsPartition<T>(points: seq<T>, classes: seq<Classification>, n: nat, ids: seq<nat>)
    requires n <= |points| && n <= |classes| && Distinct(ids)
    requires forall k :: 0 <= k < n ==> (classes[k].Core? ==> classes[k].cluster in ids)
    ensures multiset(Gather(points, classes, n, ids)) + multiset(Members(points, classes, n, Unclustered)) ==
      multiset(points[..n])
  {
    if n == 0 {
      GatherEmpty(points, classes, ids);
    } else {
      GroupsPartition(points, classes, n - 1, ids);
      PartitionStep(points, classes, n, ids);
    }
  }

  /** The inductive step of `GroupsPartition`: the partition of the first
      `n - 1` points extends to the first `n`. */
  lemma PartitionStep<T>(points: seq<T>, classes: seq<Classification>, n: nat, ids: seq<nat>)
    requires 1 <= n <= |points| && n <= |classes| && Distinct(ids)
    requires classes[n - 1].Core? ==> classes[n - 1].cluster in ids
    requires multiset(Gather(points, classes, n - 1, ids)) + multiset(Members(points, classes, n - 1, Unclustered)) ==
      multiset(points[..n - 1])
    ensures multiset(Gather(points, classes, n, ids)) + multiset(Members(points, classes, n, Unclustered)) ==
      multiset(points[..n])
  {
    GatherStep(points, classes, n, ids);
    UnclusteredStep(points, classes, n);
    PrefixStep(points, n);
    SplitOne(multiset(Gather(points, classes, n, ids)), multiset(Gather(points, classes, n - 1, ids)),
      multiset(Members(points, classes, n, Unclustered)), multiset(Members(points, classes, n - 1, Unclustered)),
      multiset(points[..n]), multiset(points[..n - 1]), points[n - 1], classes[n - 1].Core?);
  }

  /** Bookkeeping of one step: the new element goes to exactly one side. */
  lemma SplitOne<T>(g: multiset<T>, g0: multiset<T>, u: multiset<T>, u0: multiset<T>, all: multiset<T>, all0: multiset<T>, p: T, left: bool)
    requires g0 + u0 == all0 && all == all0 + multiset{p}
    requires g == g0 + (if left then multiset{p} else multiset{})
    requires u == u0 + (if left then multiset{} else multiset{p})
    ensures g + u == all
  {
  }

  /** One more zipped pair adds its point to the unclustered list unless it is a core point. */
  lemma UnclusteredStep<T>(points: seq<T>, classes: seq<Classification>, n: nat)
    requires 1 <= n <= |points| && n <= |classes|
    ensures multiset(Members(points, classes, n, Unclustered)) ==
      multiset(Members(points, classes, n - 1, Unclustered)) +
      (if classes[n - 1].Core? then multiset{} else multiset{points[n - 1]})
  {
  }

  lemma PrefixStep<T>(points: seq<T>, n: nat)
    requires 1 <= n <= |points|
    ensures multiset(points[..n]) == multiset(points[..n - 1]) + multiset{points[n - 1]}
  {
    assert points[..n] == points[..n - 1] + [points[n - 1]];
  }

  lemma {:induction false} GatherEmpty<T>(points: seq<T>, classes: seq<Classification>, ids: seq<nat>)
    ensures Gather(points, classes, 0, ids) == []
  {
    if ids != [] {
      GatherEmpty(points, classes, ids[1..]);
    }
  }

  /** Buckets listed one per cluster id concatenate to the gathered buckets. */
  lemma {:induction false} FlattenBuckets<T>(points: seq<T>, classes: seq<Classification>, n: nat, ids: seq<nat>, buckets: seq<seq<T>>)
    requires n <= |points| && n <= |classes| && |buckets| == |ids|
    requires forall j :: 0 <= j < |ids| ==> buckets[j] == Members(points, classes, n, Cluster(ids[j]))
    ensures Flatten(buckets) == Gather(points, classes, n, ids)
  {
    if ids != [] {
      FlattenBuckets(points, classes, n, ids[1..], buckets[1..]);
    }
  }

  /** `clusters.into_iter().map(|(_, points)| points).collect()`: every bucket
      of the map once, in an order the map does not specify; `ids[j]` is the
      key of `clusters[j]`. */
  method CollectBuckets<T>(buckets: map<nat, seq<T>>) returns (clusters: seq<seq<T>>, ghost ids: seq<nat>)
    ensures |clusters| == |ids| && Distinct(ids)
    ensures forall id :: id in ids <==> id in buckets
    ensures forall j :: 0 <= j < |ids| ==> ids[j] in buckets && clusters[j] == buckets[ids[j]]
  {
    var remaining := buckets.Keys;
    clusters, ids := [], [];
    while remaining != {}
      invariant remaining <= buckets.Keys
      invariant |clusters| == |ids| && Distinct(ids)
      invariant forall id :: id in buckets ==> (id in remaining <==> id !in ids)
      invariant forall j :: 0 <= j < |ids| ==> ids[j] in buckets && clusters[j] == buckets[ids[j]]
      decreases remaining
    {
      var id :| id in remaining;
      clusters, ids := clusters + [buckets[id]], ids + [id];
      remaining := remaining - {id};
    }
  }

  /** The loop of `do_dbscan_clustering` over the zipped pairs: a core point is
      appended to its cluster's bucket (created on first sight), every other
      point to the unclustered list. */
  method FillBuckets<T>(points: seq<T>, classes: seq<Classification>, n: nat)
    returns (buckets: map<nat, seq<T>>, unclustered: seq<T>)
    requires n <= |points| && n <= |classes|
    ensures unclustered == Members(points, classes, n, Unclustered)
    ensures forall id :: id in buckets <==> HasCore(classes, n, id)
    ensures forall id :: id in buckets ==> buckets[id] == Members(points, classes, n, Cluster(id))
  {
    buckets, unclustered := map[], [];
    for i := 0 to n
      invariant unclustered == Members(points, classes, i, Unclustered)
      invariant forall id :: id in buckets <==> HasCore(classes, i, id)
      invariant forall id :: id in buckets ==> buckets[id] == Members(points, classes, i, Cluster(id))
    {
      match classes[i]
      case Core(id) =>
        if id !in buckets {
          buckets := buckets[id := []];
          MembersNonEmpty(points, classes, i, id);
        }
        buckets := buckets[id := buckets[id] + [points[i]]];
      case _ =>
        unclustered := unclustered + [points[i]];
    }
  }

  /** Listing every bucket of a filled map once yields non-empty buckets that,
      with the unclustered list, hold each point exactly once. */
  lemma ListedBuckets<T>(points: seq<T>, classes: seq<Classification>, n: nat, clusters: seq<seq<T>>, ids: seq<nat>)
    requires n <= |points| && n <= |classes|
    requires |clusters| == |ids| && Distinct(ids)
    requires forall id :: id in ids <==> HasCore(classes, n, id)
    requires forall j :: 0 <= j < |ids| ==> clusters[j] == Members(points, classes, n, Cluster(ids[j]))
    ensures forall j :: 0 <= j < |clusters| ==> clusters[j] != []
    ensures multiset(Flatten(clusters)) + multiset(Members(points, classes, n, Unclustered)) == multiset(points[..n])
  {
    forall j | 0 <= j < |clusters|
      ensures clusters[j] != []
    {
      MembersNonEmpty(points, classes, n, ids[j]);
    }
    forall k | 0 <= k < n
      ensures classes[k].Core? ==> classes[k].cluster in ids
    {
      if classes[k].Core? {
        assert HasCore(classes, n, classes[k].cluster);
      }
    }
    FlattenBuckets(points, classes, n, ids, clusters);
    GroupsPartition(points, classes, n, ids);
  }

  /** `do_dbscan_clustering` after the clusterer has run: zips points with
      their classifications, appends core points to their cluster's bucket and
      all others to the unclustered list, then lists the buckets in an
      unspecified order (`ids` records which cluster each bucket is). */
  method GroupByCluster<T>(points: seq<T>, classes: seq<Classification>)
    returns (clusters: seq<seq<T>>, unclustered: seq<T>, ghost ids: seq<nat>)
    ensures unclustered == Members(points, classes, Min(|points|, |classes|), Unclustered)
    ensures forall j :: 0 <= j < |clusters| ==> clusters[j] != []
    ensures multiset(Flatten(clusters)) + multiset(unclustered) == multiset(points[..Min(|points|, |classes|)])
    ensures var n := Min(|points|, |classes|);
      && |clusters| == |ids| && Distinct(ids)
      && (forall id :: id in ids <==> HasCore(classes, n, id))
      && (forall j :: 0 <= j < |clusters| ==> clusters[j] == Members(points, classes, n, Cluster(ids[j])))
  {
    var n := Min(|points|, |classes|);
    var buckets;
    buckets, unclustered := FillBuckets(points, classes, n);
    clusters, ids := CollectBuckets(buckets);
    ListedBuckets(points, classes, n, clusters, ids);
  }
}
