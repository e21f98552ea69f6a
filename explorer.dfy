/**
 * The idea explorer: score bands, the four filters (grouping type and
 * value, band, status), the filtered list sorted newest first, the options
 * offered for the chosen grouping, and the change of grouping type.
 */
module ServiceExplorer {
  import opened Wrappers
  import opened Ideas
  import opened Lists
  import opened BusinessModel

  /** The four bands, from lowest to highest. */
  const Bands: seq<string> := ["Baixa", "Média", "Alta", "Altíssima"]

  /** `getClassificationText`: the band a score total falls in. */
  function ClassificationText(score: int): (r: string)
    ensures r in Bands
    ensures r == "Altíssima" <==> score >= 21
    ensures r == "Alta" <==> 16 <= score < 21
    ensures r == "Média" <==> 11 <= score < 16
    ensures r == "Baixa" <==> score < 11
  {
    if score >= 21 then "Altíssima"
    else if score >= 16 then "Alta"
    else if score >= 11 then "Média"
    else "Baixa"
  }

  /** The position of a band in `Bands`. */
  function BandRank(band: string): (k: nat)
    requires band in Bands
    ensures k < |Bands| && Bands[k] == band
  {
    if band == Bands[0] then 0 else if band == Bands[1] then 1 else if band == Bands[2] then 2 else 3
  }

  /** A higher total never falls in a lower band. */
  lemma BandsMonotone(a: int, b: int)
    requires a <= b
    ensures BandRank(ClassificationText(a)) <= BandRank(ClassificationText(b))
  {
  }

  /** The persisted filter state; `kind` is the grouping type ('all', 'cluster' or 'businessModel'). */
  datatype Filters = Filters(kind: string, value: string, classification: string, status: string)

  /** The filters a first visit starts with. */
  const DefaultFilters: Filters := Filters("all", "", "all", "all")

  /** The grouping filter, which applies only with a non-empty value. */
  predicate PassesGrouping(f: Filters, s: Service)
  {
    && !(f.kind == "cluster" && f.value != "" && s.cluster != f.value)
    && !(f.kind == "businessModel" && f.value != "" && MapBusinessModel(s.businessModel) != f.value)
  }

  /** The band filter, on the total of the scores. */
  predicate PassesBand(f: Filters, s: Service)
  {
    f.classification == "all" || ClassificationText(Sum(s.scores)) == f.classification
  }

  /** The status filter; an idea without a status counts as under evaluation. */
  predicate PassesStatus(f: Filters, s: Service)
  {
    f.status == "all" || StatusName(OrElse(s.status, Evaluation)) == f.status
  }

  /** The test `filteredServices` applies to each idea. */
  predicate Passes(f: Filters, s: Service)
  {
    PassesGrouping(f, s) && PassesBand(f, s) && PassesStatus(f, s)
  }

  /** The sort key of the explorer, the id (a later idea has a larger id). */
  function IdKey(s: Service): int
  {
    s.id
  }

  /** `services.filter(...)`: the ideas that pass, in list order. */
  function Kept(services: seq<Service>, f: Filters): (r: seq<Service>)
    ensures forall s :: s in r <==> s in services && Passes(f, s)
    ensures forall s :: multiset(r)[s] == if Passes(f, s) then multiset(services)[s] else 0
    ensures f.kind == "all" && f.classification == "all" && f.status == "all" ==> r == services
  {
    var r := Filter(services, s => Passes(f, s));
    FilterCounts(services, s => Passes(f, s));
    if f.kind == "all" && f.classification == "all" && f.status == "all" then
      FilterKeepsAll(services, s => Passes(f, s));
      r
    else r
  }

  /** The filter keeps list order: the kept ideas of two lists one after the other are those of their concatenation. */
  lemma KeptAppend(a: seq<Service>, b: seq<Service>, f: Filters)
    ensures Kept(a + b, f) == Kept(a, f) + Kept(b, f)
  {
    FilterAppend(a, b, s => Passes(f, s));
  }

  lemma {:induction false} FilterKeepsAll(s: seq<Service>, p: Service -> bool)
    requires forall x :: x in s ==> p(x)
    ensures Filter(s, p) == s
  {
    if s != [] {
      FilterKeepsAll(s[1..], p);
      assert s == [s[0]] + s[1..];
    }
  }

  /**
   * `filteredServices`: exactly the ideas that pass every active filter,
   * each as often as in the list, ordered by descending id; with every
   * filter switched off that is the whole list.
   */
  function FilteredServices(services: seq<Service>, f: Filters): (r: seq<Service>)
    ensures forall s :: s in r <==> s in services && Passes(f, s)
    ensures multiset(r) == multiset(Kept(services, f))
    ensures SortedDescBy(r, IdKey)
    ensures f.kind == "all" && f.classification == "all" && f.status == "all" ==> multiset(r) == multiset(services)
  {
    var kept := Kept(services, f);
    var r := SortDescBy(kept, IdKey);
    assert forall s :: s in r <==> s in kept by {
      forall s ensures s in r <==> s in kept {
        assert s in r <==> s in multiset(r);
        assert s in kept <==> s in multiset(kept);
      }
    }
    r
  }

  /** An idea without a status is kept by the 'avaliação' status filter and by no other. */
  lemma MissingStatusIsEvaluation(services: seq<Service>, f: Filters, s: Service)
    requires s in services && s.status.None? && PassesGrouping(f, s) && PassesBand(f, s)
    ensures s in FilteredServices(services, f) <==> f.status == "all" || f.status == "avaliação"
  {
  }

  /** Filtering by the cluster of a given idea always keeps that idea. */
  lemma OwnClusterKept(services: seq<Service>, s: Service)
    requires s in services
    ensures s in FilteredServices(services, Filters("cluster", s.cluster, "all", "all"))
  {
  }

  /** The business-model filter keeps an idea written in any free text its category is mapped from. */
  lemma OwnCategoryKept(services: seq<Service>, s: Service)
    requires s in services
    ensures s in FilteredServices(services, Filters("businessModel", MapBusinessModel(s.businessModel), "all", "all"))
  {
  }

  /** The cluster of every idea, in list order. */
  function ClusterList(services: seq<Service>): (r: seq<string>)
    ensures |r| == |services|
    ensures forall i :: 0 <= i < |services| ==> r[i] == services[i].cluster
  {
    seq(|services|, i requires 0 <= i < |services| => services[i].cluster)
  }

  /** `[...new Set(services.map(s => s.cluster))].sort()`: each cluster once, in code-point order. */
  function ClusterOptions(services: seq<Service>): (r: seq<string>)
    ensures forall c :: c in r <==> exists i :: 0 <= i < |services| && services[i].cluster == c
    ensures SortedStrings(r) && NoDups(r)
  {
    var d := Distinct(ClusterList(services));
    SortStringsNoDups(d);
    SortStringsSameMembers(d);
    ClusterListMembers(services);
    SortStrings(d)
  }

  /** A cluster is in the list exactly when some idea has it. */
  lemma ClusterListMembers(services: seq<Service>)
    ensures forall c :: c in ClusterList(services) <==> exists i :: 0 <= i < |services| && services[i].cluster == c
  {
    forall c | c in ClusterList(services) ensures exists i :: 0 <= i < |services| && services[i].cluster == c {
      var i :| 0 <= i < |ClusterList(services)| && ClusterList(services)[i] == c;
      assert services[i].cluster == c;
    }
  }

  /** `filterOptions`: the values offered for a grouping type. */
  function FilterOptions(kind: string, services: seq<Service>): (r: seq<string>)
    ensures kind == "cluster" ==> r == ClusterOptions(services)
    ensures kind == "businessModel" ==> r == Categories
    ensures kind != "cluster" && kind != "businessModel" ==> r == []
  {
    if kind == "cluster" then ClusterOptions(services)
    else if kind == "businessModel" then Categories
    else []
  }

  /**
   * The value `handleFilterTypeChange` picks: '' for 'all', otherwise the
   * first of the sorted clusters (for 'cluster') or of the categories (for
   * any other type), or '' when there is none.
   */
  function DefaultValue(kind: string, services: seq<Service>): (v: string)
    ensures kind == "all" ==> v == ""
    ensures kind == "cluster" && services == [] ==> v == ""
    ensures kind == "cluster" && services != [] ==> (
      && v in ClusterOptions(services)
      && forall o :: o in ClusterOptions(services) ==> StrLe(v, o))
    ensures kind != "all" && kind != "cluster" ==> v == Categories[0]
  {
    if kind == "all" then ""
    else
      var options := if kind == "cluster" then ClusterOptions(services) else Categories;
      if kind == "cluster" && services != [] then
        assert services[0].cluster in options;
        LeastFirst(options);
        options[0]
      else if options == [] then "" else options[0]
  }

  /** The head of a sorted list of strings is below every element of it. */
  lemma LeastFirst(options: seq<string>)
    requires options != [] && SortedStrings(options)
    ensures forall o :: o in options ==> StrLe(options[0], o)
  {
    StrLeRefl(options[0]);
  }

  /** The explorer's persisted filters. */
  class Explorer {
    var filters: Filters

    constructor ()
      ensures filters == DefaultFilters
    {
      filters := DefaultFilters;
    }

    /** The ideas shown for the current filters. */
    function Shown(services: seq<Service>): (r: seq<Service>)
      reads this
      ensures forall s :: s in r <==> s in services && Passes(filters, s)
    {
      FilteredServices(services, filters)
    }

    /**
     * `handleFilterTypeChange`: sets the type, resets the value to the
     * type's default and keeps the band and status filters.
     */
    method ChangeFilterType(kind: string, services: seq<Service>)
      modifies this
      ensures filters == old(filters).(kind := kind, value := DefaultValue(kind, services))
    {
      filters := filters.(kind := kind, value := DefaultValue(kind, services));
    }
  }

  /**
   * After switching to a grouping, the list shown keeps exactly the ideas
   * of the chosen default value: for 'businessModel' those mapped to the
   * first category.
   */
  lemma SwitchToModelShowsFirstCategory(services: seq<Service>, f: Filters, s: Service)
    requires s in services
    ensures var g := f.(kind := "businessModel", value := DefaultValue("businessModel", services));
            PassesGrouping(g, s) <==> MapBusinessModel(s.businessModel) == "Assinatura/Recorrência"
  {
  }
}
