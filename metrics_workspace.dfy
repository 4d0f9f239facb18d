/**
 * The metrics workspace: the domain-scoped lists of metric sets, metrics and dimensions, the
 * metric-set search and tag filter, the dimension tree pruned to the active domain, and the
 * "add to metric set" sheet.
 */
module MetricsWorkspace {
  import opened Wrappers
  import opened Strings
  import opened Seqs
  import opened Types
  import opened Utils
  import opened MetricSearch
  import opened Management

  /** `!selectedDomainId` is false: a domain is chosen (absent and "" both mean none). */
  predicate DomainChosen(domain: Option<string>) {
    domain.Some? && domain.value != ""
  }

  // ---- domain scoping ----

  predicate InDomain(a: Album, domain: Option<string>) {
    !DomainChosen(domain) || a.domain == domain.value
  }

  function InDomainFn(domain: Option<string>): Album -> bool {
    (a: Album) => InDomain(a, domain)
  }

  /** `metricSetsForDomain`: every set when no domain is chosen, else the sets of that domain. */
  function SetsForDomain(sets: seq<Album>, domain: Option<string>): (r: seq<Album>)
    ensures forall a :: a in r <==> a in sets && (!DomainChosen(domain) || a.domain == domain.value)
    ensures !DomainChosen(domain) ==> r == sets
  {
    if DomainChosen(domain) then Filter(sets, InDomainFn(domain))
    else
      FilterAll(sets, InDomainFn(domain));
      sets
  }

  lemma SetsForDomainIsFilter(sets: seq<Album>, domain: Option<string>)
    ensures SetsForDomain(sets, domain) == Filter(sets, InDomainFn(domain))
  {
    if !DomainChosen(domain) {
      FilterAll(sets, InDomainFn(domain));
    }
  }

  function MetricInDomainFn(domain: Option<string>): Metric -> bool {
    (m: Metric) => !DomainChosen(domain) || m.domain == domain.value
  }

  /** `metricsForDomain`. */
  function MetricsForDomain(metrics: seq<Metric>, domain: Option<string>): (r: seq<Metric>)
    ensures forall m :: m in r <==> m in metrics && (!DomainChosen(domain) || m.domain == domain.value)
    ensures !DomainChosen(domain) ==> r == metrics
  {
    if DomainChosen(domain) then Filter(metrics, MetricInDomainFn(domain))
    else metrics
  }

  function ServesDomainFn(domain: string): Dimension -> bool {
    (d: Dimension) => d.domain == domain || domain in d.scope
  }

  /** `dimensionsForDomain`: dimensions of the chosen domain or scoped to it. */
  function DimensionsForDomain(dims: seq<Dimension>, domain: Option<string>): (r: seq<Dimension>)
    ensures !DomainChosen(domain) ==> r == dims
    ensures DomainChosen(domain) ==> forall d :: d in r <==> d in dims && (d.domain == domain.value || domain.value in d.scope)
  {
    if DomainChosen(domain) then Filter(dims, ServesDomainFn(domain.value))
    else dims
  }

  // ---- the metric-set list ----

  /** `getMetricSetTimestamp`: the parsed field, or 0 when it is absent, empty or unparsable. */
  function AlbumTimestamp(a: Album, key: TimestampKey, parse: string -> Option<int>): (r: int)
    ensures var v := if key == CreatedAt then a.createdAt else a.updatedAt;
            v.None? || v.value == "" ==> r == 0
    ensures var v := if key == CreatedAt then a.createdAt else a.updatedAt;
            v.Some? && v.value != "" && parse(v.value).None? ==> r == 0
    ensures var v := if key == CreatedAt then a.createdAt else a.updatedAt;
            v.Some? && v.value != "" && parse(v.value).Some? ==> r == parse(v.value).value
  {
    var value := if key == CreatedAt then a.createdAt else a.updatedAt;
    match value
    case None => 0
    case Some(v) =>
      if v == "" then 0
      else match parse(v)
        case None => 0
        case Some(t) => t
  }

  function AlbumTimestampOf(key: TimestampKey, parse: string -> Option<int>): Album -> int {
    (a: Album) => AlbumTimestamp(a, key, parse)
  }

  /** The set carries at least one of the selected tags. */
  predicate CarriesTag(a: Album, tagIds: seq<string>) {
    exists k | 0 <= k < |a.tags| :: a.tags[k] in tagIds
  }

  predicate NameCondition(a: Album, key: string) {
    key == "" || Contains(ToLower(a.name), key)
  }

  function NameConditionFn(key: string): Album -> bool {
    (a: Album) => NameCondition(a, key)
  }

  predicate TagCondition(a: Album, tagIds: seq<string>) {
    |tagIds| == 0 || CarriesTag(a, tagIds)
  }

  function TagConditionFn(tagIds: seq<string>): Album -> bool {
    (a: Album) => TagCondition(a, tagIds)
  }

  /** A set is listed: in the chosen domain, its name matching the search, carrying a selected tag. */
  predicate Listed(a: Album, domain: Option<string>, search: string, tagIds: seq<string>) {
    && (!DomainChosen(domain) || a.domain == domain.value)
    && (SearchKey(search) == "" || Contains(ToLower(a.name), SearchKey(search)))
    && (|tagIds| == 0 || CarriesTag(a, tagIds))
  }

  function ListedFn(domain: Option<string>, search: string, tagIds: seq<string>): Album -> bool {
    (a: Album) => Listed(a, domain, search, tagIds)
  }

  function DomainAndNameFn(domain: Option<string>, key: string): Album -> bool {
    (a: Album) => InDomain(a, domain) && NameCondition(a, key)
  }

  /** The metric-set list: the listed sets sorted by the chosen timestamp. */
  function SetsView(sets: seq<Album>, domain: Option<string>, search: string, tagIds: seq<string>,
                    key: TimestampKey, ascending: bool, parse: string -> Option<int>): seq<Album> {
    SortBy(Filter(sets, ListedFn(domain, search, tagIds)), AlbumTimestampOf(key, parse), ascending)
  }

  /** The `filteredSets` memo: the domain, search and tag filters one after another, then the sort. */
  method FilteredSets(sets: seq<Album>, domain: Option<string>, search: string, tagIds: seq<string>,
                      key: TimestampKey, ascending: bool, parse: string -> Option<int>) returns (r: seq<Album>)
    ensures r == SetsView(sets, domain, search, tagIds, key, ascending, parse)
    ensures forall a :: a in r <==> a in sets && Listed(a, domain, search, tagIds)
    ensures multiset(r) == multiset(Filter(sets, ListedFn(domain, search, tagIds)))
    ensures SortedBy(r, AlbumTimestampOf(key, parse), ascending)
    ensures forall t :: Filter(r, KeyIs(AlbumTimestampOf(key, parse), t)) ==
                        Filter(Filter(sets, ListedFn(domain, search, tagIds)), KeyIs(AlbumTimestampOf(key, parse), t))
  {
    var result := SetsForDomain(sets, domain);
    SetsForDomainIsFilter(sets, domain);
    var q := SearchKey(search);
    if q != "" {
      result := Filter(result, NameConditionFn(q));
    } else {
      FilterAll(result, NameConditionFn(q));
    }
    FilterConj(sets, InDomainFn(domain), NameConditionFn(q), DomainAndNameFn(domain, q));
    assert result == Filter(sets, DomainAndNameFn(domain, q));
    if |tagIds| > 0 {
      result := Filter(result, TagConditionFn(tagIds));
    } else {
      FilterAll(result, TagConditionFn(tagIds));
    }
    FilterConj(sets, DomainAndNameFn(domain, q), TagConditionFn(tagIds), ListedFn(domain, search, tagIds));
    r := SortBy(result, AlbumTimestampOf(key, parse), ascending);
    SetsViewSpec(sets, domain, search, tagIds, key, ascending, parse);
  }

  /** The list holds exactly the listed sets, each as often as in the input, in timestamp order. */
  lemma SetsViewSpec(sets: seq<Album>, domain: Option<string>, search: string, tagIds: seq<string>,
                     key: TimestampKey, ascending: bool, parse: string -> Option<int>)
    ensures var r := SetsView(sets, domain, search, tagIds, key, ascending, parse);
      && (forall a :: a in r <==> a in sets && Listed(a, domain, search, tagIds))
      && multiset(r) == multiset(Filter(sets, ListedFn(domain, search, tagIds)))
      && SortedBy(r, AlbumTimestampOf(key, parse), ascending)
      && forall t :: Filter(r, KeyIs(AlbumTimestampOf(key, parse), t)) ==
           Filter(Filter(sets, ListedFn(domain, search, tagIds)), KeyIs(AlbumTimestampOf(key, parse), t))
  {
    var r := SetsView(sets, domain, search, tagIds, key, ascending, parse);
    var f := Filter(sets, ListedFn(domain, search, tagIds));
    forall t ensures Filter(r, KeyIs(AlbumTimestampOf(key, parse), t)) == Filter(f, KeyIs(AlbumTimestampOf(key, parse), t)) {
      SortByStable(f, AlbumTimestampOf(key, parse), ascending, t);
    }
    forall a ensures a in r <==> a in f {
      assert a in r <==> a in multiset(r);
      assert a in f <==> a in multiset(f);
    }
  }

  // ---- the tag filter on metrics ----

  function TaggedContribution(a: Album, tagIds: seq<string>): set<string> {
    if CarriesTag(a, tagIds) then Elems(a.metricSlugs) else {}
  }

  /** The slugs of the sets among `ss` that carry a selected tag. */
  function TaggedSlugs(ss: seq<Album>, tagIds: seq<string>): set<string>
    decreases |ss|
  {
    if |ss| == 0 then {}
    else TaggedSlugs(ss[..|ss| - 1], tagIds) + TaggedContribution(ss[|ss| - 1], tagIds)
  }

  /** A slug is collected exactly when some tagged set lists it. */
  lemma {:induction false} TaggedSlugsMembers(ss: seq<Album>, tagIds: seq<string>, slug: string)
    ensures slug in TaggedSlugs(ss, tagIds) <==>
      exists i | 0 <= i < |ss| :: CarriesTag(ss[i], tagIds) && slug in ss[i].metricSlugs
    decreases |ss|
  {
    if |ss| > 0 {
      var init := ss[..|ss| - 1];
      TaggedSlugsMembers(init, tagIds, slug);
      if exists i | 0 <= i < |ss| :: CarriesTag(ss[i], tagIds) && slug in ss[i].metricSlugs {
        var i :| 0 <= i < |ss| && CarriesTag(ss[i], tagIds) && slug in ss[i].metricSlugs;
        if i < |ss| - 1 {
          assert init[i] == ss[i];
        }
      }
      if exists i | 0 <= i < |init| :: CarriesTag(init[i], tagIds) && slug in init[i].metricSlugs {
        var i :| 0 <= i < |init| && CarriesTag(init[i], tagIds) && slug in init[i].metricSlugs;
        assert ss[i] == init[i];
      }
    }
  }

  /** `items.forEach((x) => slugs.add(x))`. */
  method AddAll(slugs: set<string>, items: seq<string>) returns (r: set<string>)
    ensures r == slugs + Elems(items)
  {
    r := slugs;
    var j := 0;
    while j < |items|
      invariant 0 <= j <= |items|
      invariant r == slugs + Elems(items[..j])
    {
      ElemsSnoc(items, j);
      r := r + {items[j]};
      j := j + 1;
    }
    assert items[..j] == items;
  }

  /** One more set adds its contribution. */
  lemma TaggedSlugsStep(ss: seq<Album>, i: nat, tagIds: seq<string>)
    requires i < |ss|
    ensures TaggedSlugs(ss[..i + 1], tagIds) == TaggedSlugs(ss[..i], tagIds) + TaggedContribution(ss[i], tagIds)
  {
    assert ss[..i + 1][..i] == ss[..i];
  }

  /** One more item adds itself. */
  lemma ElemsSnoc(s: seq<string>, j: nat)
    requires j < |s|
    ensures Elems(s[..j + 1]) == Elems(s[..j]) + {s[j]}
  {
    assert s[..j + 1] == s[..j] + [s[j]];
  }

  /** `metricSlugsForSelectedTags` as a value: absent with no tag selected. */
  function TagSlugs(sets: seq<Album>, domain: Option<string>, tagIds: seq<string>): Option<set<string>> {
    if |tagIds| == 0 then None else Some(TaggedSlugs(SetsForDomain(sets, domain), tagIds))
  }

  /**
   * `metricSlugsForSelectedTags`: for each in-domain set carrying a selected tag, every one of
   * its slugs is added to the set being built.
   */
  method MetricSlugsForSelectedTags(sets: seq<Album>, domain: Option<string>, tagIds: seq<string>)
    returns (r: Option<set<string>>)
    ensures r == TagSlugs(sets, domain, tagIds)
    ensures r.None? <==> |tagIds| == 0
    ensures r.Some? ==> forall slug :: slug in r.value <==>
      exists i | 0 <= i < |sets| :: InDomain(sets[i], domain) && CarriesTag(sets[i], tagIds) && slug in sets[i].metricSlugs
  {
    if |tagIds| == 0 {
      return None;
    }
    var inDomain := SetsForDomain(sets, domain);
    var slugs: set<string> := {};
    var i := 0;
    while i < |inDomain|
      invariant 0 <= i <= |inDomain|
      invariant slugs == TaggedSlugs(inDomain[..i], tagIds)
    {
      var a := inDomain[i];
      TaggedSlugsStep(inDomain, i, tagIds);
      if CarriesTag(a, tagIds) {
        slugs := AddAll(slugs, a.metricSlugs);
      }
      i := i + 1;
    }
    assert inDomain[..i] == inDomain;
    r := Some(slugs);
    TagSlugsMembersAll(sets, domain, tagIds);
  }

  /** `TagSlugsMembers` for every slug at once. */
  lemma TagSlugsMembersAll(sets: seq<Album>, domain: Option<string>, tagIds: seq<string>)
    ensures forall slug :: slug in TaggedSlugs(SetsForDomain(sets, domain), tagIds) <==>
      exists k | 0 <= k < |sets| :: InDomain(sets[k], domain) && CarriesTag(sets[k], tagIds) && slug in sets[k].metricSlugs
  {
    forall slug ensures slug in TaggedSlugs(SetsForDomain(sets, domain), tagIds) <==>
      exists k | 0 <= k < |sets| :: InDomain(sets[k], domain) && CarriesTag(sets[k], tagIds) && slug in sets[k].metricSlugs
    {
      TagSlugsMembers(sets, domain, tagIds, slug);
    }
  }

  /** A slug is collected exactly when some in-domain set carrying a selected tag lists it. */
  lemma TagSlugsMembers(sets: seq<Album>, domain: Option<string>, tagIds: seq<string>, slug: string)
    ensures slug in TaggedSlugs(SetsForDomain(sets, domain), tagIds) <==>
      exists k | 0 <= k < |sets| :: InDomain(sets[k], domain) && CarriesTag(sets[k], tagIds) && slug in sets[k].metricSlugs
  {
    var inDomain := SetsForDomain(sets, domain);
    TaggedSlugsMembers(inDomain, tagIds, slug);
    if exists k | 0 <= k < |sets| :: InDomain(sets[k], domain) && CarriesTag(sets[k], tagIds) && slug in sets[k].metricSlugs {
      var k :| 0 <= k < |sets| && InDomain(sets[k], domain) && CarriesTag(sets[k], tagIds) && slug in sets[k].metricSlugs;
      assert sets[k] in inDomain;
      var j :| 0 <= j < |inDomain| && inDomain[j] == sets[k];
    }
    if exists k | 0 <= k < |inDomain| :: CarriesTag(inDomain[k], tagIds) && slug in inDomain[k].metricSlugs {
      var k :| 0 <= k < |inDomain| && CarriesTag(inDomain[k], tagIds) && slug in inDomain[k].metricSlugs;
      assert inDomain[k] in sets;
      var j :| 0 <= j < |sets| && sets[j] == inDomain[k];
    }
  }

  function SlugInFn(slugs: set<string>): Metric -> bool {
    (m: Metric) => m.slug in slugs
  }

  /** `metricsForDomainWithTagFilter`: without a tag filter, the domain's metrics unchanged. */
  function MetricsWithTagFilter(metrics: seq<Metric>, domain: Option<string>, tagSlugs: Option<set<string>>)
    : (r: seq<Metric>)
    ensures tagSlugs.None? ==> r == MetricsForDomain(metrics, domain)
    ensures tagSlugs.Some? ==> forall m :: m in r <==> m in MetricsForDomain(metrics, domain) && m.slug in tagSlugs.value
  {
    match tagSlugs
    case None => MetricsForDomain(metrics, domain)
    case Some(slugs) => Filter(MetricsForDomain(metrics, domain), SlugInFn(slugs))
  }

  // ---- the dimension tree pruned to a domain ----

  function OwnSlugs(n: DimensionTreeNode): seq<string> {
    match n.dimensionSlugs
    case None => []
    case Some(slugs) => slugs
  }

  /** Every slug listed anywhere in the node's subtree, in preorder. */
  function SubtreeSlugs(n: DimensionTreeNode): seq<string>
    decreases n
  {
    OwnSlugs(n) + match n.children
      case NoDimensionChildren => []
      case DimensionChildren(cs) => ForestSlugs(cs)
  }

  function ForestSlugs(ns: seq<DimensionTreeNode>): seq<string>
    decreases ns
  {
    if |ns| == 0 then [] else SubtreeSlugs(ns[0]) + ForestSlugs(ns[1..])
  }

  /** `children.reduce((sum, child) => sum + child.count, 0)`. */
  function CountSum(ns: seq<DimensionTreeNode>): int {
    if |ns| == 0 then 0 else ns[0].count + CountSum(ns[1..])
  }

  function InSetFn(keep: set<string>): string -> bool {
    (s: string) => s in keep
  }

  /** `filterNode`: prune the children, keep the own slugs in `keep`, drop a node whose total is 0. */
  function PruneNode(n: DimensionTreeNode, keep: set<string>): Option<DimensionTreeNode>
    decreases n
  {
    var children := match n.children
      case NoDimensionChildren => []
      case DimensionChildren(cs) => PruneForest(cs, keep);
    var own := Filter(OwnSlugs(n), InSetFn(keep));
    var total := |own| + CountSum(children);
    if total == 0 then None
    else Some(n.(children := if |children| > 0 then DimensionChildren(children) else NoDimensionChildren,
                 dimensionSlugs := if |own| > 0 then Some(own) else None,
                 count := total))
  }

  /** `.map(filterNode).filter((node) => node !== null)`. */
  function PruneForest(ns: seq<DimensionTreeNode>, keep: set<string>): seq<DimensionTreeNode>
    decreases ns
  {
    if |ns| == 0 then []
    else
      var rest := PruneForest(ns[1..], keep);
      match PruneNode(ns[0], keep)
      case None => rest
      case Some(m) => [m] + rest
  }

  lemma {:induction false} ForestSlugsAppend(a: seq<DimensionTreeNode>, b: seq<DimensionTreeNode>)
    ensures ForestSlugs(a + b) == ForestSlugs(a) + ForestSlugs(b)
    ensures CountSum(a + b) == CountSum(a) + CountSum(b)
    decreases |a|
  {
    if |a| == 0 {
      assert a + b == b;
    } else {
      assert (a + b)[0] == a[0] && (a + b)[1..] == a[1..] + b;
      ForestSlugsAppend(a[1..], b);
    }
  }

  /**
   * A node survives exactly when its subtree lists a kept slug. The surviving node lists exactly
   * the kept slugs of the original subtree, in the same order, and its count is their number.
   */
  lemma {:induction false} PruneNodeSpec(n: DimensionTreeNode, keep: set<string>)
    ensures PruneNode(n, keep).None? <==> Filter(SubtreeSlugs(n), InSetFn(keep)) == []
    ensures PruneNode(n, keep).Some? ==>
      && SubtreeSlugs(PruneNode(n, keep).value) == Filter(SubtreeSlugs(n), InSetFn(keep))
      && PruneNode(n, keep).value.count == |Filter(SubtreeSlugs(n), InSetFn(keep))|
    decreases n
  {
    var below := match n.children
      case NoDimensionChildren => []
      case DimensionChildren(cs) => ForestSlugs(cs);
    var children := match n.children
      case NoDimensionChildren => []
      case DimensionChildren(cs) => PruneForest(cs, keep);
    match n.children {
      case NoDimensionChildren =>
      case DimensionChildren(cs) =>
        PruneForestSpec(cs, keep);
    }
    assert ForestSlugs(children) == Filter(below, InSetFn(keep));
    assert CountSum(children) == |Filter(below, InSetFn(keep))|;
    FilterAppend(OwnSlugs(n), below, InSetFn(keep));
    assert SubtreeSlugs(n) == OwnSlugs(n) + below;
  }

  /** The pruned forest lists exactly the kept slugs of the original, in order, and counts them. */
  lemma {:induction false} PruneForestSpec(ns: seq<DimensionTreeNode>, keep: set<string>)
    ensures ForestSlugs(PruneForest(ns, keep)) == Filter(ForestSlugs(ns), InSetFn(keep))
    ensures CountSum(PruneForest(ns, keep)) == |Filter(ForestSlugs(ns), InSetFn(keep))|
    decreases ns
  {
    if |ns| > 0 {
      PruneNodeSpec(ns[0], keep);
      PruneForestSpec(ns[1..], keep);
      FilterAppend(SubtreeSlugs(ns[0]), ForestSlugs(ns[1..]), InSetFn(keep));
      var rest := PruneForest(ns[1..], keep);
      match PruneNode(ns[0], keep) {
        case None =>
        case Some(m) =>
          ForestSlugsAppend([m], rest);
          assert ForestSlugs([m]) == SubtreeSlugs(m) by {
            assert [m][1..] == [];
          }
      }
    }
  }

  /** A node of a pruned tree: positive count, no empty lists, and only kept own slugs. */
  predicate PrunedShape(n: DimensionTreeNode, keep: set<string>)
    decreases n
  {
    && n.count > 0
    && (n.dimensionSlugs.Some? ==> |n.dimensionSlugs.value| > 0)
    && (n.dimensionSlugs.Some? ==> forall i | 0 <= i < |n.dimensionSlugs.value| :: n.dimensionSlugs.value[i] in keep)
    && match n.children
       case NoDimensionChildren => true
       case DimensionChildren(cs) => |cs| > 0 && forall i | 0 <= i < |cs| :: PrunedShape(cs[i], keep)
  }

  lemma {:induction false} PruneNodeShape(n: DimensionTreeNode, keep: set<string>)
    ensures PruneNode(n, keep).Some? ==> PrunedShape(PruneNode(n, keep).value, keep)
    decreases n
  {
    match n.children {
      case NoDimensionChildren =>
      case DimensionChildren(cs) =>
        PruneForestShape(cs, keep);
        CountSumNonNegative(PruneForest(cs, keep), keep);
    }
  }

  lemma {:induction false} CountSumNonNegative(ns: seq<DimensionTreeNode>, keep: set<string>)
    requires forall i | 0 <= i < |ns| :: PrunedShape(ns[i], keep)
    ensures CountSum(ns) >= 0
    decreases |ns|
  {
    if |ns| > 0 {
      CountSumNonNegative(ns[1..], keep);
    }
  }

  lemma {:induction false} PruneForestShape(ns: seq<DimensionTreeNode>, keep: set<string>)
    ensures forall i | 0 <= i < |PruneForest(ns, keep)| :: PrunedShape(PruneForest(ns, keep)[i], keep)
    decreases ns
  {
    if |ns| > 0 {
      PruneNodeShape(ns[0], keep);
      PruneForestShape(ns[1..], keep);
    }
  }

  /** The slugs of the dimensions that serve the chosen domain. */
  function DomainDimensionSlugs(dims: seq<Dimension>, domain: Option<string>): set<string> {
    set d | d in DimensionsForDomain(dims, domain) :: d.slug
  }

  /** `filteredDimensionTree`: the whole tree when no domain is chosen, else the pruned roots. */
  function FilteredDimensionTree(tree: seq<DimensionTreeNode>, domain: Option<string>, dims: seq<Dimension>)
    : (r: seq<DimensionTreeNode>)
    ensures !DomainChosen(domain) ==> r == tree
  {
    if !DomainChosen(domain) then tree else PruneForest(tree, DomainDimensionSlugs(dims, domain))
  }

  /**
   * With a domain chosen, the pruned tree lists exactly the tree's slugs that belong to the
   * domain's dimensions, in order; every node has the pruned shape.
   */
  lemma FilteredDimensionTreeSpec(tree: seq<DimensionTreeNode>, domain: Option<string>, dims: seq<Dimension>)
    requires DomainChosen(domain)
    ensures var keep := DomainDimensionSlugs(dims, domain);
      && ForestSlugs(FilteredDimensionTree(tree, domain, dims)) == Filter(ForestSlugs(tree), InSetFn(keep))
      && CountSum(FilteredDimensionTree(tree, domain, dims)) == |Filter(ForestSlugs(tree), InSetFn(keep))|
      && forall i | 0 <= i < |FilteredDimensionTree(tree, domain, dims)| ::
           PrunedShape(FilteredDimensionTree(tree, domain, dims)[i], keep)
  {
    PruneForestSpec(tree, DomainDimensionSlugs(dims, domain));
    PruneForestShape(tree, DomainDimensionSlugs(dims, domain));
  }

  // ---- the "add to metric set" sheet ----

  const SelectSetMessage := "Select a metric set and at least one metric."
  const SetNotFoundMessage := "Selected metric set not found in mock data."

  function AddedMessage(count: nat, name: string): string {
    "Added " + NatToString(count) + " metric" + (if count == 1 then "" else "s") + " to \"" + name + "\" (mock)."
  }

  function HasAlbumId(id: string): Album -> bool {
    (a: Album) => a.id == id
  }

  /** The set the selection is merged into, and the merged set. */
  function Merged(target: Album, slugs: seq<string>): (r: Album)
    ensures r == target.(metricSlugs := r.metricSlugs)
    ensures NoDup(r.metricSlugs)
    ensures forall s :: s in r.metricSlugs <==> s in target.metricSlugs || s in slugs
  {
    target.(metricSlugs := Dedup(target.metricSlugs + slugs))
  }

  /** A duplicate-free set keeps its slugs in place and gains the new ones, once each, in order. */
  lemma MergedExtends(target: Album, slugs: seq<string>)
    requires NoDup(target.metricSlugs)
    ensures Merged(target, slugs).metricSlugs == target.metricSlugs + DedupFrom(slugs, Elems(target.metricSlugs))
  {
    DedupExtends(target.metricSlugs, slugs);
  }

  /** `handleAddSelectionToSet`: the new list of sets, or the message. */
  function AddSelection(sets: seq<Album>, selectedId: Option<string>, slugs: seq<string>)
    : (r: Result<seq<Album>, string>)
    ensures (selectedId.None? || selectedId.value == "" || |slugs| == 0) ==> r == Err(SelectSetMessage)
    ensures selectedId.Some? && selectedId.value != "" && |slugs| > 0 ==>
      match Find(sets, HasAlbumId(selectedId.value))
      case None => r == Err(SetNotFoundMessage)
      case Some(target) =>
        && r.Ok? && |r.value| == |sets|
        && forall i | 0 <= i < |sets| :: r.value[i] == if sets[i].id == target.id then Merged(target, slugs) else sets[i]
  {
    if selectedId.None? || selectedId.value == "" || |slugs| == 0 then Err(SelectSetMessage)
    else match Find(sets, HasAlbumId(selectedId.value))
      case None => Err(SetNotFoundMessage)
      case Some(target) =>
        var updated := Merged(target, slugs);
        Ok(seq(|sets|, i requires 0 <= i < |sets| => if sets[i].id == target.id then updated else sets[i]))
  }

  /** Adding a selection changes only the chosen set's slugs, which gain every selected slug. */
  lemma AddSelectionOnlyTouchesTarget(sets: seq<Album>, id: string, slugs: seq<string>)
    requires id != "" && |slugs| > 0
    requires AddSelection(sets, Some(id), slugs).Ok?
    ensures var r := AddSelection(sets, Some(id), slugs).value;
      && |r| == |sets|
      && forall i | 0 <= i < |sets| ::
           && (sets[i].id != id ==> r[i] == sets[i])
           && (sets[i].id == id ==> forall s | s in slugs :: s in r[i].metricSlugs)
  {
    var target := Find(sets, HasAlbumId(id)).value;
    assert target.id == id;
  }

  /** The domain of a set created from the sheet: the chosen domain, else the first domain, else "Custom". */
  function NewSetDomain(domain: Option<string>, domains: seq<Domain>): (r: string)
    ensures r != ""
    ensures DomainChosen(domain) ==> r == domain.value
    ensures !DomainChosen(domain) && |domains| > 0 && domains[0].id != "" ==> r == domains[0].id
    ensures !DomainChosen(domain) && !(|domains| > 0 && domains[0].id != "") ==> r == "Custom"
  {
    if DomainChosen(domain) then domain.value
    else if |domains| > 0 && domains[0].id != "" then domains[0].id
    else "Custom"
  }

  /** `handleCreateNewSet`: the sets with the new one appended, or the message. */
  function CreateNewSet(sets: seq<Album>, name: string, description: string, visibility: Visibility,
                        domain: Option<string>, domains: seq<Domain>, slugs: seq<string>, now: nat)
    : (r: Result<seq<Album>, string>)
    ensures r.Err? <==> AllSpace(name) || exists i | 0 <= i < |sets| :: sets[i].name == Trim(name)
    ensures AllSpace(name) ==> r == Err(NameRequiredMessage)
    ensures r.Ok? ==> r.value == sets + [Album("a-" + NatToString(now), Trim(name), Trim(description), "",
                                              visibility, NewSetDomain(domain, domains), slugs, [], None, None)]
  {
    TrimEmptyIffBlank(name);
    var trimmed := Trim(name);
    if trimmed == "" then Err(NameRequiredMessage)
    else if exists i | 0 <= i < |sets| :: sets[i].name == trimmed then Err(SetNameClashMessage(trimmed))
    else Ok(sets + [Album("a-" + NatToString(now), trimmed, Trim(description), "", visibility,
                          NewSetDomain(domain, domains), slugs, [], None, None)])
  }

  /** Creating a set from the sheet keeps set names unique. */
  lemma CreateNewSetKeepsNamesUnique(sets: seq<Album>, name: string, description: string, visibility: Visibility,
                                     domain: Option<string>, domains: seq<Domain>, slugs: seq<string>, now: nat)
    requires UniqueSetNames(sets)
    requires CreateNewSet(sets, name, description, visibility, domain, domains, slugs, now).Ok?
    ensures UniqueSetNames(CreateNewSet(sets, name, description, visibility, domain, domains, slugs, now).value)
  {
    var r := CreateNewSet(sets, name, description, visibility, domain, domains, slugs, now).value;
    forall i, j | 0 <= i < j < |r| ensures r[i].name != r[j].name {
      assert r[i] == sets[i];
    }
  }

  /** The set preselected when the sheet opens: the first in-domain set, else the first set. */
  function DefaultSetId(sets: seq<Album>, domain: Option<string>): (r: Option<string>)
    ensures r.None? <==> |sets| == 0
    ensures |SetsForDomain(sets, domain)| > 0 ==> r == Some(SetsForDomain(sets, domain)[0].id)
    ensures |SetsForDomain(sets, domain)| == 0 && |sets| > 0 ==> r == Some(sets[0].id)
  {
    var inDomain := SetsForDomain(sets, domain);
    if |inDomain| > 0 then
      assert inDomain[0] in sets;
      Some(inDomain[0].id)
    else if |sets| > 0 then Some(sets[0].id)
    else
      None
  }

  /**
   * The preselected set is the one at the first index in the domain; when no set is in the domain,
   * the first set, and nothing when there are no sets.
   */
  lemma DefaultSetIdFirstInDomain(sets: seq<Album>, domain: Option<string>)
    ensures match FirstIndex(sets, InDomainFn(domain))
      case Some(i) =>
        && InDomain(sets[i], domain)
        && (forall j | 0 <= j < i :: !InDomain(sets[j], domain))
        && DefaultSetId(sets, domain) == Some(sets[i].id)
      case None =>
        && (forall j | 0 <= j < |sets| :: !InDomain(sets[j], domain))
        && DefaultSetId(sets, domain) == (if |sets| > 0 then Some(sets[0].id) else None)
  {
    SetsForDomainIsFilter(sets, domain);
    var inDomain := SetsForDomain(sets, domain);
    if |inDomain| > 0 {
      FilterHead(sets, InDomainFn(domain));
    }
  }

  /** The "add to metric set" sheet's state. */
  class AddToSetSheet {
    var selectedSetId: Option<string>
    var name: string
    var description: string
    var visibility: Visibility
    var message: Option<string>

    constructor()
      ensures selectedSetId.None? && name == "" && description == "" && visibility == Team && message.None?
    {
      selectedSetId := None;
      name := "";
      description := "";
      visibility := Team;
      message := None;
    }

    /** The effect run on open: blank form, default set preselected. */
    method ResetOnOpen(open: bool, sets: seq<Album>, domain: Option<string>)
      modifies this
      ensures !open ==> unchanged(this)
      ensures open ==>
        && name == "" && description == "" && visibility == Team && message.None?
        && selectedSetId == DefaultSetId(sets, domain)
    {
      if open {
        name := "";
        description := "";
        visibility := Team;
        selectedSetId := DefaultSetId(sets, domain);
        message := None;
      }
    }

    /** `handleAddSelectionToSet`: hands up the new list of sets and reports what was added. */
    method AddSelectionToSet(sets: seq<Album>, slugs: seq<string>) returns (next: Option<seq<Album>>)
      modifies this
      ensures selectedSetId == old(selectedSetId) && name == old(name) && description == old(description)
      ensures match AddSelection(sets, selectedSetId, slugs)
        case Err(m) => next.None? && message == Some(m)
        case Ok(s) =>
          && next == Some(s)
          && message == Some(AddedMessage(|slugs|, Find(sets, HasAlbumId(selectedSetId.value)).value.name))
    {
      match AddSelection(sets, selectedSetId, slugs)
      case Err(m) =>
        next := None;
        message := Some(m);
      case Ok(s) =>
        next := Some(s);
        message := Some(AddedMessage(|slugs|, Find(sets, HasAlbumId(selectedSetId.value)).value.name));
    }

    /** `handleCreateNewSet`: hands up the new list of sets, or shows the message. */
    method CreateSet(sets: seq<Album>, domain: Option<string>, domains: seq<Domain>, slugs: seq<string>, now: nat)
      returns (next: Option<seq<Album>>)
      modifies this
      ensures selectedSetId == old(selectedSetId) && name == old(name) && description == old(description)
      ensures match CreateNewSet(sets, name, description, visibility, domain, domains, slugs, now)
        case Err(m) => next.None? && message == Some(m)
        case Ok(s) => next == Some(s) && message == old(message)
    {
      match CreateNewSet(sets, name, description, visibility, domain, domains, slugs, now)
      case Err(m) =>
        next := None;
        message := Some(m);
      case Ok(s) =>
        next := Some(s);
    }
  }
}
