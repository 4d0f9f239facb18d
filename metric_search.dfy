/**
 * The metric search view: the filter-and-sort pipeline over metrics, the option lists of the
 * category and owner selects, and the bulk-selection list with its checkbox toggle and pruning.
 */
module MetricSearch {
  import opened Wrappers
  import opened Strings
  import opened Seqs
  import opened Types
  import opened Utils

  /** The category select shows a path joined with a single right-pointing angle quote. */
  const CategorySeparator: string := " \U{203A} "

  /** The "all" value of the select filters: no restriction. */
  const AllValue: string := "all"

  /** The has-query select: "all", "yes" or "no". */
  datatype HasQueryFilter = AnyQuery | WithQuery | WithoutQuery

  /** The view's filter and sort controls. */
  datatype Criteria = Criteria(
    search: string,
    category: string,
    businessOwner: string,
    techOwner: string,
    hasQuery: HasQueryFilter,
    sortField: TimestampKey,
    ascending: bool)

  function CategoryLabel(m: Metric): string {
    Join(m.categoryPath, CategorySeparator)
  }

  /** `search.toLowerCase().trim()`. */
  function SearchKey(search: string): string {
    Trim(ToLower(search))
  }

  /** The lower-cased name, slug or business definition contains the key. */
  predicate MatchesText(m: Metric, key: string) {
    Contains(ToLower(m.businessName), key) || Contains(ToLower(m.slug), key)
    || Contains(ToLower(m.businessDefinition), key)
  }

  /** The five filters of the pipeline, in the order they are applied. */
  datatype Stage = SearchStage | CategoryStage | BusinessOwnerStage | TechOwnerStage | HasQueryStage

  const Stages: seq<Stage> := [SearchStage, CategoryStage, BusinessOwnerStage, TechOwnerStage, HasQueryStage]

  /** The stage's filter is switched on. */
  predicate Active(c: Criteria, stage: Stage) {
    match stage
    case SearchStage => SearchKey(c.search) != ""
    case CategoryStage => c.category != AllValue
    case BusinessOwnerStage => c.businessOwner != AllValue
    case TechOwnerStage => c.techOwner != AllValue
    case HasQueryStage => c.hasQuery != AnyQuery
  }

  /** The metric passes the stage; an inactive stage passes everything. */
  predicate Holds(m: Metric, c: Criteria, stage: Stage) {
    match stage
    case SearchStage => SearchKey(c.search) == "" || MatchesText(m, SearchKey(c.search))
    case CategoryStage => c.category == AllValue || CategoryLabel(m) == c.category
    case BusinessOwnerStage => c.businessOwner == AllValue || m.owners.businessOwner == c.businessOwner
    case TechOwnerStage => c.techOwner == AllValue || m.owners.techOwner == c.techOwner
    case HasQueryStage =>
      match c.hasQuery
      case AnyQuery => true
      case WithQuery => |m.queryDefinitions| > 0
      case WithoutQuery => |m.queryDefinitions| == 0
  }

  function HoldsFn(c: Criteria, stage: Stage): Metric -> bool {
    (m: Metric) => Holds(m, c, stage)
  }

  /** Every condition of the view holds of the metric. */
  predicate Passes(m: Metric, c: Criteria) {
    && (SearchKey(c.search) == "" || MatchesText(m, SearchKey(c.search)))
    && (c.category == AllValue || CategoryLabel(m) == c.category)
    && (c.businessOwner == AllValue || m.owners.businessOwner == c.businessOwner)
    && (c.techOwner == AllValue || m.owners.techOwner == c.techOwner)
    && (c.hasQuery == WithQuery ==> |m.queryDefinitions| > 0)
    && (c.hasQuery == WithoutQuery ==> |m.queryDefinitions| == 0)
  }

  function PassesFn(c: Criteria): Metric -> bool {
    (m: Metric) => Passes(m, c)
  }

  /** The first `k` stages pass the metric. */
  predicate PassesFirst(m: Metric, c: Criteria, k: nat)
    requires k <= |Stages|
  {
    forall j | 0 <= j < k :: Holds(m, c, Stages[j])
  }

  function PassesFirstFn(c: Criteria, k: nat): Metric -> bool
    requires k <= |Stages|
  {
    (m: Metric) => k <= |Stages| && PassesFirst(m, c, k)
  }

  function TimestampOf(key: TimestampKey, parse: string -> Option<int>): Metric -> int {
    (m: Metric) => MetricTimestamp(m, key, parse)
  }

  /** What the view lists: the passing metrics, sorted by the chosen timestamp. */
  function SearchResults(metrics: seq<Metric>, c: Criteria, parse: string -> Option<int>): seq<Metric> {
    SortBy(Filter(metrics, PassesFn(c)), TimestampOf(c.sortField, parse), c.ascending)
  }

  /** Applying stage `k` to the survivors of the first `k` stages leaves the survivors of `k + 1`. */
  lemma StageStep(metrics: seq<Metric>, c: Criteria, k: nat)
    requires k < |Stages|
    ensures Filter(Filter(metrics, PassesFirstFn(c, k)), HoldsFn(c, Stages[k])) == Filter(metrics, PassesFirstFn(c, k + 1))
  {
    forall i | 0 <= i < |metrics|
      ensures PassesFirstFn(c, k + 1)(metrics[i]) == (PassesFirstFn(c, k)(metrics[i]) && HoldsFn(c, Stages[k])(metrics[i]))
    {
      var m := metrics[i];
      if PassesFirst(m, c, k) && Holds(m, c, Stages[k]) {
        forall j | 0 <= j < k + 1 ensures Holds(m, c, Stages[j]) {
        }
      }
    }
    FilterConj(metrics, PassesFirstFn(c, k), HoldsFn(c, Stages[k]), PassesFirstFn(c, k + 1));
  }

  /** Before any stage every metric survives. */
  lemma NoStages(metrics: seq<Metric>, c: Criteria)
    ensures Filter(metrics, PassesFirstFn(c, 0)) == metrics
  {
    FilterAll(metrics, PassesFirstFn(c, 0));
  }

  /** An inactive stage passes every metric, so skipping it changes nothing. */
  lemma InactiveStage(s: seq<Metric>, c: Criteria, stage: Stage)
    requires !Active(c, stage)
    ensures Filter(s, HoldsFn(c, stage)) == s
  {
    FilterAll(s, HoldsFn(c, stage));
  }

  /** The five stages together are the view's conditions. */
  lemma AllStagesArePasses(metrics: seq<Metric>, c: Criteria)
    ensures Filter(metrics, PassesFirstFn(c, |Stages|)) == Filter(metrics, PassesFn(c))
  {
    forall i | 0 <= i < |metrics|
      ensures PassesFirstFn(c, |Stages|)(metrics[i]) == PassesFn(c)(metrics[i])
    {
      var m := metrics[i];
      if PassesFirst(m, c, |Stages|) {
        assert Holds(m, c, Stages[0]) && Holds(m, c, Stages[1]) && Holds(m, c, Stages[2]);
        assert Holds(m, c, Stages[3]) && Holds(m, c, Stages[4]);
      }
      if Passes(m, c) {
        forall j | 0 <= j < |Stages| ensures Holds(m, c, Stages[j]) {
        }
      }
    }
    FilterExt(metrics, PassesFirstFn(c, |Stages|), PassesFn(c));
  }

  /**
   * One step of the pipeline: filter by stage `k` when it is switched on. The survivors of the
   * first `k` stages become the survivors of the first `k + 1`.
   */
  method ApplyStage(metrics: seq<Metric>, result: seq<Metric>, c: Criteria, k: nat) returns (next: seq<Metric>)
    requires k < |Stages|
    requires result == Filter(metrics, PassesFirstFn(c, k))
    ensures next == Filter(metrics, PassesFirstFn(c, k + 1))
  {
    if Active(c, Stages[k]) {
      next := Filter(result, HoldsFn(c, Stages[k]));
    } else {
      InactiveStage(result, c, Stages[k]);
      next := result;
    }
    StageStep(metrics, c, k);
  }

  /**
   * The `filtered` memo: the search, category, owner and has-query filters applied one after
   * another, then a sort by the chosen timestamp.
   */
  method Filtered(metrics: seq<Metric>, c: Criteria, parse: string -> Option<int>) returns (r: seq<Metric>)
    ensures r == SearchResults(metrics, c, parse)
    ensures forall m :: m in r <==> m in metrics && Passes(m, c)
    ensures multiset(r) == multiset(Filter(metrics, PassesFn(c)))
    ensures SortedBy(r, TimestampOf(c.sortField, parse), c.ascending)
    ensures forall t :: Filter(r, KeyIs(TimestampOf(c.sortField, parse), t)) ==
                        Filter(Filter(metrics, PassesFn(c)), KeyIs(TimestampOf(c.sortField, parse), t))
  {
    var result := ApplyFilters(metrics, c);
    r := SortBy(result, TimestampOf(c.sortField, parse), c.ascending);
    SearchResultsSpec(metrics, c, parse);
  }

  /** The successive `result = result.filter(...)` steps of the `filtered` memo. */
  method ApplyFilters(metrics: seq<Metric>, c: Criteria) returns (result: seq<Metric>)
    ensures result == Filter(metrics, PassesFn(c))
  {
    NoStages(metrics, c);
    result := metrics;
    result := ApplyStage(metrics, result, c, 0);  // search text
    result := ApplyStage(metrics, result, c, 1);  // category
    result := ApplyStage(metrics, result, c, 2);  // business owner
    result := ApplyStage(metrics, result, c, 3);  // technical owner
    result := ApplyStage(metrics, result, c, 4);  // has query
    AllStagesArePasses(metrics, c);
  }

  /** The listed metrics are exactly the passing ones, each as often as in the input, sorted. */
  lemma SearchResultsSpec(metrics: seq<Metric>, c: Criteria, parse: string -> Option<int>)
    ensures forall m :: m in SearchResults(metrics, c, parse) <==> m in metrics && Passes(m, c)
    ensures multiset(SearchResults(metrics, c, parse)) == multiset(Filter(metrics, PassesFn(c)))
    ensures SortedBy(SearchResults(metrics, c, parse), TimestampOf(c.sortField, parse), c.ascending)
    ensures forall t :: Filter(SearchResults(metrics, c, parse), KeyIs(TimestampOf(c.sortField, parse), t)) ==
                        Filter(Filter(metrics, PassesFn(c)), KeyIs(TimestampOf(c.sortField, parse), t))
  {
    var f := Filter(metrics, PassesFn(c));
    forall t ensures Filter(SearchResults(metrics, c, parse), KeyIs(TimestampOf(c.sortField, parse), t)) ==
      Filter(f, KeyIs(TimestampOf(c.sortField, parse), t))
    {
      SortByStable(f, TimestampOf(c.sortField, parse), c.ascending, t);
    }
    forall m ensures m in SearchResults(metrics, c, parse) <==> m in f {
      assert m in SearchResults(metrics, c, parse) <==> m in multiset(SearchResults(metrics, c, parse));
      assert m in f <==> m in multiset(f);
    }
  }

  /** With every filter on "all" and a blank search, the view lists every metric. */
  lemma NoRestriction(metrics: seq<Metric>, c: Criteria, parse: string -> Option<int>)
    requires AllSpace(c.search) && c.category == AllValue && c.businessOwner == AllValue
    requires c.techOwner == AllValue && c.hasQuery == AnyQuery
    ensures multiset(SearchResults(metrics, c, parse)) == multiset(metrics)
  {
    LowerBlankIff(c.search);
    FilterAll(metrics, PassesFn(c));
  }

  // ---- the option lists ----

  function NonEmptyFn(): string -> bool {
    (s: string) => s != ""
  }

  /** `Array.from(set).sort()` over the non-empty values, added in order. */
  function OptionsOf(values: seq<string>): seq<string> {
    SortLex(Dedup(Filter(values, NonEmptyFn())))
  }

  /** The option list holds each non-empty value exactly once, in sorted order. */
  lemma OptionsOfSpec(values: seq<string>)
    ensures NoDup(OptionsOf(values)) && LexSorted(OptionsOf(values))
    ensures forall x :: x in OptionsOf(values) <==> x in values && x != ""
  {
    var d := Dedup(Filter(values, NonEmptyFn()));
    NoDupPermutation(OptionsOf(values), d);
    forall x ensures x in OptionsOf(values) <==> x in d {
      assert x in OptionsOf(values) <==> x in multiset(OptionsOf(values));
      assert x in d <==> x in multiset(d);
    }
  }

  function CategoryLabelFn(): Metric -> string {
    (m: Metric) => CategoryLabel(m)
  }

  function BusinessOwnerFn(): Metric -> string {
    (m: Metric) => m.owners.businessOwner
  }

  function TechOwnerFn(): Metric -> string {
    (m: Metric) => m.owners.techOwner
  }

  function Column(metrics: seq<Metric>, field: Metric -> string): (r: seq<string>)
    ensures |r| == |metrics|
    ensures forall x :: x in r <==> exists i | 0 <= i < |metrics| :: field(metrics[i]) == x
  {
    assert forall i | 0 <= i < |metrics| :: seq(|metrics|, i requires 0 <= i < |metrics| => field(metrics[i]))[i] == field(metrics[i]);
    seq(|metrics|, i requires 0 <= i < |metrics| => field(metrics[i]))
  }

  /** Adding one more value to the `Set` of non-empty values seen so far, in insertion order. */
  lemma OptionStep(values: seq<string>, i: nat, found: seq<string>)
    requires i < |values|
    requires found == Dedup(Filter(values[..i], NonEmptyFn()))
    ensures Dedup(Filter(values[..i + 1], NonEmptyFn()))
      == if values[i] != "" && values[i] !in found then found + [values[i]] else found
  {
    var v := values[i];
    assert values[..i + 1] == values[..i] + [v];
    FilterAppend(values[..i], [v], NonEmptyFn());
    var before := Filter(values[..i], NonEmptyFn());
    var step := Filter([v], NonEmptyFn());
    DedupFromAppend(before, step, {});
    assert {} + Elems(before) == Elems(before);
    if v != "" {
      assert step == [v];
      assert DedupFrom(step, Elems(before)) == if v in found then [] else [v];
    } else {
      assert step == [];
    }
  }

  /** One `forEach` adding the non-empty field values to a `Set`, then `Array.from(...).sort()`. */
  method CollectOptions(metrics: seq<Metric>, field: Metric -> string) returns (r: seq<string>)
    ensures r == OptionsOf(Column(metrics, field))
  {
    ghost var values := Column(metrics, field);
    var found: seq<string> := [];
    var i := 0;
    while i < |metrics|
      invariant 0 <= i <= |metrics|
      invariant found == Dedup(Filter(values[..i], NonEmptyFn()))
    {
      var v := field(metrics[i]);
      assert v == values[i];
      OptionStep(values, i, found);
      if v != "" && v !in found {
        found := found + [v];
      }
      i := i + 1;
    }
    assert values[..|metrics|] == values;
    r := SortLex(found);
  }

  /** `categoryOptions`: the distinct non-empty category labels, sorted. */
  method CategoryOptions(metrics: seq<Metric>) returns (r: seq<string>)
    ensures NoDup(r) && LexSorted(r)
    ensures forall x :: x in r <==> x != "" && exists i | 0 <= i < |metrics| :: CategoryLabel(metrics[i]) == x
  {
    r := CollectOptions(metrics, CategoryLabelFn());
    OptionsOfSpec(Column(metrics, CategoryLabelFn()));
  }

  /** `businessOwnerOptions`. */
  method BusinessOwnerOptions(metrics: seq<Metric>) returns (r: seq<string>)
    ensures NoDup(r) && LexSorted(r)
    ensures forall x :: x in r <==> x != "" && exists i | 0 <= i < |metrics| :: metrics[i].owners.businessOwner == x
  {
    r := CollectOptions(metrics, BusinessOwnerFn());
    OptionsOfSpec(Column(metrics, BusinessOwnerFn()));
  }

  /** `techOwnerOptions`. */
  method TechOwnerOptions(metrics: seq<Metric>) returns (r: seq<string>)
    ensures NoDup(r) && LexSorted(r)
    ensures forall x :: x in r <==> x != "" && exists i | 0 <= i < |metrics| :: metrics[i].owners.techOwner == x
  {
    r := CollectOptions(metrics, TechOwnerFn());
    OptionsOfSpec(Column(metrics, TechOwnerFn()));
  }

  // ---- the bulk selection ----

  function SlugPresentIn(metrics: seq<Metric>): string -> bool {
    (slug: string) => exists i | 0 <= i < |metrics| :: metrics[i].slug == slug
  }

  /** The selection after the metrics change: the slugs still present, in their order. */
  function PrunedSelection(selected: seq<string>, metrics: seq<Metric>): (r: seq<string>)
    ensures forall s :: s in r <==> s in selected && exists i | 0 <= i < |metrics| :: metrics[i].slug == s
    ensures NoDup(selected) ==> NoDup(r)
  {
    FilterKeepsNoDup(selected, SlugPresentIn(metrics));
    Filter(selected, SlugPresentIn(metrics))
  }

  lemma {:induction false} FilterKeepsNoDup(s: seq<string>, p: string -> bool)
    ensures NoDup(s) ==> NoDup(Filter(s, p))
    decreases |s|
  {
    if |s| > 0 {
      FilterKeepsNoDup(s[1..], p);
      if NoDup(s) {
        assert NoDup(s[1..]);
        assert s[0] !in s[1..];
      }
    }
  }

  /** Pruning against unchanged metrics again changes nothing. */
  lemma PruneIdempotent(selected: seq<string>, metrics: seq<Metric>)
    ensures PrunedSelection(PrunedSelection(selected, metrics), metrics) == PrunedSelection(selected, metrics)
  {
    FilterAll(PrunedSelection(selected, metrics), SlugPresentIn(metrics));
  }

  function SlugIsNot(slug: string): string -> bool {
    (s: string) => s != slug
  }

  /** The checkbox toggle: checking appends an absent slug, unchecking removes every copy. */
  function Toggled(selected: seq<string>, slug: string, checked: bool): (r: seq<string>)
    ensures checked && slug in selected ==> r == selected
    ensures checked && slug !in selected ==> r == selected + [slug]
    ensures !checked ==> forall s :: s in r <==> s in selected && s != slug
    ensures NoDup(selected) ==> NoDup(r)
  {
    FilterKeepsNoDup(selected, SlugIsNot(slug));
    if checked then
      if slug in selected then selected else selected + [slug]
    else Filter(selected, SlugIsNot(slug))
  }

  /** Unchecking a slug that checking just added restores a selection that did not hold it. */
  lemma CheckThenUncheck(selected: seq<string>, slug: string)
    requires slug !in selected
    ensures Toggled(Toggled(selected, slug, true), slug, false) == selected
  {
    FilterAppend(selected, [slug], SlugIsNot(slug));
    FilterAll(selected, SlugIsNot(slug));
  }

  /** The selected slugs of the view. */
  class Selection {
    var slugs: seq<string>

    constructor()
      ensures slugs == []
    {
      slugs := [];
    }

    /** The effect run when the metrics change. */
    method Prune(metrics: seq<Metric>)
      modifies this
      ensures slugs == PrunedSelection(old(slugs), metrics)
    {
      slugs := PrunedSelection(slugs, metrics);
    }

    method Toggle(slug: string, checked: bool)
      modifies this
      ensures slugs == Toggled(old(slugs), slug, checked)
    {
      slugs := Toggled(slugs, slug, checked);
    }
  }
}
