/**
 * The portfolio overview: how many ideas, how many distinct clusters and
 * business-model categories, and how the ideas are spread over the
 * clusters, largest cluster first.
 */
module Overview {
  import opened Ideas
  import opened Lists
  import opened BusinessModel
  import ServiceExplorer

  /** How many times `c` occurs in `s`. */
  function Count(s: seq<string>, c: string): nat
  {
    if s == [] then 0 else Count(s[..|s| - 1], c) + (if s[|s| - 1] == c then 1 else 0)
  }

  lemma CountAppend(s: seq<string>, x: string, c: string)
    ensures Count(s + [x], c) == Count(s, c) + (if x == c then 1 else 0)
  {
    assert (s + [x])[..|s|] == s;
  }

  lemma {:induction false} CountAbsent(s: seq<string>, c: string)
    requires c !in s
    ensures Count(s, c) == 0
  {
    if s != [] {
      assert s[..|s| - 1] <= s;
      CountAbsent(s[..|s| - 1], c);
    }
  }

  /**
   * The `reduce` that builds `clusterCounts`: one key per cluster that
   * occurs, holding the number of ideas in it.
   */
  function CountMap(clusters: seq<string>): (m: map<string, nat>)
    ensures forall c :: c in m <==> c in clusters
    ensures forall c :: c in m ==> m[c] == Count(clusters, c)
  {
    if clusters == [] then map[]
    else
      var p := clusters[..|clusters| - 1];
      var x := clusters[|clusters| - 1];
      var acc := CountMap(p);
      var r := acc[x := (if x in acc then acc[x] else 0) + 1];
      CountMapStep(p, x, acc, r);
      r
  }

  lemma CountMapStep(p: seq<string>, x: string, acc: map<string, nat>, r: map<string, nat>)
    requires forall c :: c in acc <==> c in p
    requires forall c :: c in acc ==> acc[c] == Count(p, c)
    requires r == acc[x := (if x in acc then acc[x] else 0) + 1]
    ensures forall c :: c in r <==> c in p + [x]
    ensures forall c :: c in r ==> r[c] == Count(p + [x], c)
  {
    forall c ensures Count(p + [x], c) == Count(p, c) + (if x == c then 1 else 0) {
      CountAppend(p, x, c);
    }
    if x !in p {
      CountAbsent(p, x);
    }
  }

  /** One slice of the cluster chart: a cluster's name and its number of ideas. */
  datatype ClusterEntry = ClusterEntry(name: string, value: nat)

  function EntryValue(e: ClusterEntry): int
  {
    e.value
  }

  /** `Object.entries(counts).map(...)`, for the keys in the order given. */
  function Entries(keys: seq<string>, m: map<string, nat>): (r: seq<ClusterEntry>)
    requires forall k :: k in keys ==> k in m
    ensures |r| == |keys|
    ensures forall i :: 0 <= i < |keys| ==> r[i] == ClusterEntry(keys[i], m[keys[i]])
  {
    seq(|keys|, i requires 0 <= i < |keys| => ClusterEntry(keys[i], m[keys[i]]))
  }

  /** The figures the overview shows. */
  datatype Stats = Stats(totalIdeas: nat, totalClusters: nat, totalBusinessModels: nat, clusterDistribution: seq<ClusterEntry>)

  /** The category of every idea. */
  function ModelList(services: seq<Service>): (r: seq<string>)
    ensures |r| == |services|
    ensures forall i :: 0 <= i < |services| ==> r[i] == MapBusinessModel(services[i].businessModel)
  {
    seq(|services|, i requires 0 <= i < |services| => MapBusinessModel(services[i].businessModel))
  }

  /** The sum of the values of a list of slices. */
  function TotalValue(entries: seq<ClusterEntry>): int
  {
    if entries == [] then 0 else entries[0].value + TotalValue(entries[1..])
  }

  /**
   * The overview's `useMemo`: the number of ideas; the number of distinct
   * clusters; the number of distinct categories, at most six; and one slice
   * per cluster (in order of first appearance, then sorted by non-increasing
   * count) whose counts add up to the number of ideas.
   */
  function Aggregate(services: seq<Service>): (o: Stats)
    ensures o.totalIdeas == |services|
    ensures o.totalClusters == |Elements(ServiceExplorer.ClusterList(services))|
    ensures o.totalBusinessModels == |Elements(ModelList(services))|
    ensures o.totalBusinessModels <= |Categories|
    ensures |o.clusterDistribution| == o.totalClusters
    ensures forall e :: e in o.clusterDistribution ==> e.value == Count(ServiceExplorer.ClusterList(services), e.name)
    ensures forall c :: c in ServiceExplorer.ClusterList(services) <==> exists e :: e in o.clusterDistribution && e.name == c
    ensures SortedDescBy(o.clusterDistribution, EntryValue)
    ensures TotalValue(o.clusterDistribution) == |services|
  {
    var clusters := ServiceExplorer.ClusterList(services);
    var models := Distinct(ModelList(services));
    DistributionMembers(clusters);
    DistributionTotal(clusters);
    DistributionSize(clusters);
    ModelCount(services);
    Stats(|services|, |Distinct(clusters)|, |models|, Distribution(clusters))
  }

  /** One slice per distinct cluster, in order of first appearance, sorted by non-increasing count. */
  function Distribution(clusters: seq<string>): seq<ClusterEntry>
  {
    SortDescBy(Entries(Distinct(clusters), CountMap(clusters)), EntryValue)
  }

  /** There are as many slices as distinct clusters. */
  lemma DistributionSize(clusters: seq<string>)
    ensures |Distribution(clusters)| == |Distinct(clusters)| == |Elements(clusters)|
  {
    var keys := Distinct(clusters);
    NoDupsCard(keys);
    assert Elements(keys) == Elements(clusters);
  }

  /** Every slice counts the ideas of one cluster that occurs, and every cluster has a slice. */
  lemma DistributionMembers(clusters: seq<string>)
    ensures forall e :: e in Distribution(clusters) ==> e.value == Count(clusters, e.name) && e.name in clusters
    ensures forall c :: c in clusters ==> exists e :: e in Distribution(clusters) && e.name == c
  {
    var keys := Distinct(clusters);
    var entries := Entries(keys, CountMap(clusters));
    var dist := Distribution(clusters);
    assert multiset(dist) == multiset(entries);
    forall e | e in dist ensures e.value == Count(clusters, e.name) && e.name in clusters {
      assert e in multiset(entries);
    }
    forall c | c in clusters ensures exists e :: e in dist && e.name == c {
      var i :| 0 <= i < |keys| && keys[i] == c;
      assert entries[i] in multiset(dist);
      assert entries[i].name == c;
    }
  }

  /** The slices' counts add up to the number of ideas. */
  lemma DistributionTotal(clusters: seq<string>)
    ensures TotalValue(Distribution(clusters)) == |clusters|
  {
    var keys := Distinct(clusters);
    var counts := CountMap(clusters);
    SortKeepsTotal(Entries(keys, counts));
    EntriesTotal(keys, counts, clusters);
    CountsAddUp(clusters);
  }

  /** The distinct categories are the distinct category names of the ideas, at most six. */
  lemma ModelCount(services: seq<Service>)
    ensures |Distinct(ModelList(services))| == |Elements(ModelList(services))| <= |Categories|
  {
    var models := Distinct(ModelList(services));
    NoDupsCard(models);
    assert Elements(models) == Elements(ModelList(services));
    NoDupsWithin(models, Categories);
  }

  /** Adding the counts of every cluster, each once, gives the number of ideas. */
  lemma {:induction false} CountsAddUp(clusters: seq<string>)
    ensures SumCounts(Distinct(clusters), clusters) == |clusters|
  {
    if clusters != [] {
      var p := clusters[..|clusters| - 1];
      var x := clusters[|clusters| - 1];
      assert clusters == p + [x];
      var d := Distinct(p);
      CountsAddUp(p);
      SumCountsAppendOccurrence(d, p, x);
      if x !in d {
        SumCountsAppendKey(d, x, clusters);
        CountAppend(p, x, x);
        CountAbsent(p, x);
      }
    }
  }

  /** `SumCounts(keys, s)`: the counts in `s` of the keys, added. */
  function SumCounts(keys: seq<string>, s: seq<string>): int
  {
    if keys == [] then 0 else Count(s, keys[0]) + SumCounts(keys[1..], s)
  }

  lemma {:induction false} SumCountsAppendOccurrence(keys: seq<string>, s: seq<string>, x: string)
    requires NoDups(keys)
    ensures SumCounts(keys, s + [x]) == SumCounts(keys, s) + (if x in keys then 1 else 0)
  {
    if keys != [] {
      SumCountsAppendOccurrence(keys[1..], s, x);
      CountAppend(s, x, keys[0]);
      assert x in keys <==> x == keys[0] || x in keys[1..];
      assert x == keys[0] ==> x !in keys[1..];
    }
  }

  lemma {:induction false} SumCountsAppendKey(keys: seq<string>, k: string, s: seq<string>)
    ensures SumCounts(keys + [k], s) == SumCounts(keys, s) + Count(s, k)
  {
    if keys != [] {
      assert (keys + [k])[1..] == keys[1..] + [k];
      SumCountsAppendKey(keys[1..], k, s);
    } else {
      assert keys + [k] == [k];
    }
  }

  lemma {:induction false} EntriesTotal(keys: seq<string>, m: map<string, nat>, s: seq<string>)
    requires forall k :: k in keys ==> k in m && m[k] == Count(s, k)
    ensures TotalValue(Entries(keys, m)) == SumCounts(keys, s)
  {
    if keys != [] {
      EntriesTotal(keys[1..], m, s);
      assert Entries(keys, m)[1..] == Entries(keys[1..], m);
    }
  }

  /** Sorting the slices keeps their total. */
  lemma {:induction false} SortKeepsTotal(entries: seq<ClusterEntry>)
    ensures TotalValue(SortDescBy(entries, EntryValue)) == TotalValue(entries)
  {
    if entries != [] {
      SortKeepsTotal(entries[1..]);
      InsertKeepsTotal(entries[0], SortDescBy(entries[1..], EntryValue));
    }
  }

  lemma {:induction false} InsertKeepsTotal(x: ClusterEntry, s: seq<ClusterEntry>)
    requires SortedDescBy(s, EntryValue)
    ensures TotalValue(InsertDesc(x, s, EntryValue)) == x.value + TotalValue(s)
  {
    if s != [] && EntryValue(s[0]) > EntryValue(x) {
      InsertKeepsTotal(x, s[1..]);
    }
  }
}
