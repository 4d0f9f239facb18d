/**
 * The derivation sheet: the form that collects a derived-metric specification for a base metric,
 * validates it and hands it to App. Its form fields and its filter-row list are state changed
 * step by step; the validations are expressions over that state.
 */
module DerivedSheet {
  import opened Wrappers
  import opened Strings
  import opened Seqs
  import opened Types
  import opened Utils
  import opened App

  datatype Mode = FilterMode | ArithmeticMode

  const RequiredMessage := "Business name and slug are required."
  const NoRowsMessage := "Add at least one dimension filter with values."
  const NoOtherMessage := "Select another metric to combine with."
  const OtherElsewhereMessage := "The selected metric is not available in the same domain."

  function SlugClashMessage(slug: string): string {
    "Metric slug \"" + slug + "\" already exists in this demo."
  }

  // ---- lists derived from the props ----

  function InDomainOtherThan(base: Metric): Metric -> bool {
    (m: Metric) => m.domain == base.domain && m.slug != base.slug
  }

  /** `metricsInDomain`: the metrics of the base's domain, other than those with the base's slug. */
  function MetricsInDomain(metrics: seq<Metric>, base: Metric): (r: seq<Metric>)
    ensures forall m :: m in r <==> m in metrics && m.domain == base.domain && m.slug != base.slug
  {
    Filter(metrics, InDomainOtherThan(base))
  }

  /** A dimension belongs to `domain` directly or through its scope. */
  predicate ServesDomain(d: Dimension, domain: string) {
    d.domain == domain || domain in d.scope
  }

  function ServesDomainOf(base: Metric): Dimension -> bool {
    (d: Dimension) => ServesDomain(d, base.domain)
  }

  /** `dimensionsForBase`: the dimensions of the base's domain, directly or through their scope. */
  function DimensionsForBase(dimensions: seq<Dimension>, base: Metric): (r: seq<Dimension>)
    ensures forall d :: d in r <==> d in dimensions && (d.domain == base.domain || base.domain in d.scope)
  {
    Filter(dimensions, ServesDomainOf(base))
  }

  /**
   * The slug a new filter row starts with: the base's first bound dimension, else the first
   * dimension serving the base's domain, else the first dimension, else "".
   */
  function FallbackSlug(base: Metric, dimensions: seq<Dimension>): (r: string)
    ensures |base.boundDimensionSlugs| > 0 ==> r == base.boundDimensionSlugs[0]
    ensures |base.boundDimensionSlugs| == 0 && |DimensionsForBase(dimensions, base)| > 0 ==>
      r == DimensionsForBase(dimensions, base)[0].slug
    ensures |base.boundDimensionSlugs| == 0 && |DimensionsForBase(dimensions, base)| == 0 && |dimensions| > 0 ==>
      r == dimensions[0].slug
    ensures |base.boundDimensionSlugs| == 0 && |dimensions| == 0 ==> r == ""
  {
    var forBase := DimensionsForBase(dimensions, base);
    if |base.boundDimensionSlugs| > 0 then base.boundDimensionSlugs[0]
    else if |forBase| > 0 then forBase[0].slug
    else if |dimensions| > 0 then dimensions[0].slug
    else ""
  }

  /**
   * Without bound dimensions, a new row starts with the dimension at the first index serving the
   * base's domain; when none serves it, with the first dimension, or "" when there is none.
   */
  lemma FallbackSlugFirstServing(base: Metric, dimensions: seq<Dimension>)
    requires |base.boundDimensionSlugs| == 0
    ensures match FirstIndex(dimensions, ServesDomainOf(base))
      case Some(i) =>
        && ServesDomain(dimensions[i], base.domain)
        && (forall j | 0 <= j < i :: !ServesDomain(dimensions[j], base.domain))
        && FallbackSlug(base, dimensions) == dimensions[i].slug
      case None =>
        && (forall j | 0 <= j < |dimensions| :: !ServesDomain(dimensions[j], base.domain))
        && FallbackSlug(base, dimensions) == (if |dimensions| > 0 then dimensions[0].slug else "")
  {
    var forBase := DimensionsForBase(dimensions, base);
    if |forBase| > 0 {
      FilterHead(dimensions, ServesDomainOf(base));
    }
  }

  // ---- validation ----

  /**
   * `validateCommonFields`: the message to show, or `None` when the trimmed name and slug are
   * present and no metric already has the trimmed slug.
   */
  function CommonFieldsError(businessName: string, slug: string, metrics: seq<Metric>): (r: Option<string>)
    ensures r.None? <==> !AllSpace(businessName) && !AllSpace(slug) && !SlugTaken(metrics, Trim(slug))
    ensures r == Some(RequiredMessage) <==> AllSpace(businessName) || AllSpace(slug)
  {
    TrimEmptyIffBlank(businessName);
    TrimEmptyIffBlank(slug);
    var trimmedName := Trim(businessName);
    var trimmedSlug := Trim(slug);
    if trimmedName == "" || trimmedSlug == "" then Some(RequiredMessage)
    else if SlugTaken(metrics, trimmedSlug) then
      assert SlugClashMessage(trimmedSlug)[..13] == "Metric slug \"";
      Some(SlugClashMessage(trimmedSlug))
    else None
  }

  function TrimRow(f: FilterRow): FilterRow {
    FilterRow(Trim(f.dimensionSlug), Trim(f.values))
  }

  predicate Filled(f: FilterRow) {
    f.dimensionSlug != "" && f.values != ""
  }

  function IsFilled(): FilterRow -> bool {
    (f: FilterRow) => Filled(f)
  }

  function TrimRows(rows: seq<FilterRow>): seq<FilterRow> {
    seq(|rows|, i requires 0 <= i < |rows| => TrimRow(rows[i]))
  }

  /** The filter rows `handleSubmitFilter` keeps: each row trimmed, rows with a blank field dropped. */
  function TrimmedRows(rows: seq<FilterRow>): (r: seq<FilterRow>)
    ensures |r| <= |rows|
    ensures forall f :: f in r <==> exists i | 0 <= i < |rows| ::
      f == TrimRow(rows[i]) && !AllSpace(rows[i].dimensionSlug) && !AllSpace(rows[i].values)
    ensures forall i | 0 <= i < |r| :: r[i].dimensionSlug != "" && r[i].values != ""
  {
    var r := Filter(TrimRows(rows), IsFilled());
    forall f ensures f in r <==> exists i | 0 <= i < |rows| ::
      f == TrimRow(rows[i]) && !AllSpace(rows[i].dimensionSlug) && !AllSpace(rows[i].values)
    {
      if f in r {
        var i :| 0 <= i < |rows| && TrimRows(rows)[i] == f;
        TrimEmptyIffBlank(rows[i].dimensionSlug);
        TrimEmptyIffBlank(rows[i].values);
      }
      if exists i | 0 <= i < |rows| :: f == TrimRow(rows[i]) && !AllSpace(rows[i].dimensionSlug) && !AllSpace(rows[i].values) {
        var i :| 0 <= i < |rows| && f == TrimRow(rows[i]) && !AllSpace(rows[i].dimensionSlug) && !AllSpace(rows[i].values);
        TrimEmptyIffBlank(rows[i].dimensionSlug);
        TrimEmptyIffBlank(rows[i].values);
        assert TrimRows(rows)[i] == f;
      }
    }
    r
  }

  /** Row trimming keeps the order of the rows: it works on consecutive lists independently. */
  lemma TrimmedRowsAppend(a: seq<FilterRow>, b: seq<FilterRow>)
    ensures TrimmedRows(a + b) == TrimmedRows(a) + TrimmedRows(b)
  {
    assert TrimRows(a + b) == TrimRows(a) + TrimRows(b);
    FilterAppend(TrimRows(a), TrimRows(b), IsFilled());
  }

  /** Every kept row is trimmed on both fields. */
  lemma TrimmedRowsAreTrimmed(rows: seq<FilterRow>)
    ensures forall i | 0 <= i < |TrimmedRows(rows)| ::
      Trim(TrimmedRows(rows)[i].dimensionSlug) == TrimmedRows(rows)[i].dimensionSlug
      && Trim(TrimmedRows(rows)[i].values) == TrimmedRows(rows)[i].values
  {
    var r := TrimmedRows(rows);
    forall i | 0 <= i < |r|
      ensures Trim(r[i].dimensionSlug) == r[i].dimensionSlug && Trim(r[i].values) == r[i].values
    {
      assert r[i] in r;
      var k :| 0 <= k < |rows| && r[i] == TrimRow(rows[k]) && !AllSpace(rows[k].dimensionSlug) && !AllSpace(rows[k].values);
      TrimIdempotent(rows[k].dimensionSlug);
      TrimIdempotent(rows[k].values);
    }
  }

  /**
   * `handleSubmitFilter`: the filter-mode specification, or the message the sheet shows.
   * The rows need values only as text: a row whose values hold no token still passes.
   */
  function FilterSubmission(businessName: string, slug: string, description: string,
                            rows: seq<FilterRow>, metrics: seq<Metric>): (r: Result<DerivedSpec, string>)
    ensures r.Ok? <==> CommonFieldsError(businessName, slug, metrics).None? && |TrimmedRows(rows)| > 0
    ensures r.Err? && CommonFieldsError(businessName, slug, metrics).None? ==> r.error == NoRowsMessage
    ensures r.Ok? ==>
      && r.value.FilterSpec? && r.value.businessName == Trim(businessName) && r.value.slug == Trim(slug)
      && r.value.slug != "" && !SlugTaken(metrics, r.value.slug)
      && r.value.description == NonBlank(description) && r.value.dimensionFilters == TrimmedRows(rows)
  {
    match CommonFieldsError(businessName, slug, metrics)
    case Some(message) => Err(message)
    case None =>
      TrimEmptyIffBlank(slug);
      var trimmed := TrimmedRows(rows);
      if |trimmed| == 0 then Err(NoRowsMessage)
      else Ok(FilterSpec(Trim(businessName), Trim(slug), NonBlank(description), trimmed))
  }

  /** `Number(coefficient.trim() || "1")` with `NaN` mapped to an absent coefficient. */
  function Coefficient(coefficient: string, parseNumber: string -> JsNumber): (r: Option<JsNumber>)
    ensures r.None? <==> parseNumber(if AllSpace(coefficient) then "1" else Trim(coefficient)).NaN?
    ensures r.Some? ==> r.value.Num?
  {
    TrimEmptyIffBlank(coefficient);
    var text := Trim(coefficient);
    var parsed := parseNumber(if text == "" then "1" else text);
    if parsed.NaN? then None else Some(parsed)
  }

  /**
   * `handleSubmitArithmetic`: the arithmetic-mode specification, or the message the sheet shows.
   * The other metric must be found among the metrics of the base's domain, other than the base.
   */
  function ArithmeticSubmission(businessName: string, slug: string, description: string,
                                otherMetricSlug: string, operator: Operator, coefficient: string,
                                base: Metric, metrics: seq<Metric>, parseNumber: string -> JsNumber)
    : (r: Result<DerivedSpec, string>)
    ensures r.Ok? <==>
      && CommonFieldsError(businessName, slug, metrics).None? && !AllSpace(otherMetricSlug)
      && OtherInDomain(metrics, base, Trim(otherMetricSlug))
    ensures r.Ok? ==>
      && r.value.ArithmeticSpec? && r.value.businessName == Trim(businessName)
      && r.value.slug == Trim(slug) && r.value.slug != "" && !SlugTaken(metrics, r.value.slug)
      && r.value.description == NonBlank(description) && r.value.otherMetricSlug == Trim(otherMetricSlug)
      && r.value.otherMetricSlug != base.slug && r.value.operator == operator
      && r.value.coefficient == Coefficient(coefficient, parseNumber)
    ensures CommonFieldsError(businessName, slug, metrics).Some? ==>
      r == Err(CommonFieldsError(businessName, slug, metrics).value)
    ensures CommonFieldsError(businessName, slug, metrics).None? && AllSpace(otherMetricSlug) ==>
      r == Err(NoOtherMessage)
    ensures && CommonFieldsError(businessName, slug, metrics).None? && !AllSpace(otherMetricSlug)
            && !OtherInDomain(metrics, base, Trim(otherMetricSlug))
            ==> r == Err(OtherElsewhereMessage)
  {
    match CommonFieldsError(businessName, slug, metrics)
    case Some(message) => Err(message)
    case None =>
      TrimEmptyIffBlank(slug);
      TrimEmptyIffBlank(otherMetricSlug);
      var trimmedSlug := Trim(otherMetricSlug);
      if trimmedSlug == "" then Err(NoOtherMessage)
      else
        var inDomain := MetricsInDomain(metrics, base);
        FindInDomainIff(metrics, base, trimmedSlug);
        match Find(inDomain, HasSlug(trimmedSlug))
        case None => Err(OtherElsewhereMessage)
        case Some(other) =>
          Ok(ArithmeticSpec(Trim(businessName), Trim(slug), NonBlank(description), trimmedSlug, operator,
                            Coefficient(coefficient, parseNumber)))
  }

  /** Some metric other than the base, in the base's domain, has slug `slug`. */
  predicate OtherInDomain(metrics: seq<Metric>, base: Metric, slug: string) {
    exists i | 0 <= i < |metrics| :: metrics[i].slug == slug && metrics[i].domain == base.domain && metrics[i].slug != base.slug
  }

  /** The lookup among `metricsInDomain` succeeds exactly when such a metric exists. */
  lemma FindInDomainIff(metrics: seq<Metric>, base: Metric, slug: string)
    ensures Find(MetricsInDomain(metrics, base), HasSlug(slug)).Some? <==> OtherInDomain(metrics, base, slug)
  {
    var inDomain := MetricsInDomain(metrics, base);
    if OtherInDomain(metrics, base, slug) {
      var i :| 0 <= i < |metrics| && metrics[i].slug == slug && metrics[i].domain == base.domain && metrics[i].slug != base.slug;
      assert metrics[i] in inDomain;
      var j :| 0 <= j < |inDomain| && inDomain[j] == metrics[i];
      assert HasSlug(slug)(inDomain[j]);
    }
    if Find(inDomain, HasSlug(slug)).Some? {
      var m := Find(inDomain, HasSlug(slug)).value;
      assert m in metrics;
      var i :| 0 <= i < |metrics| && metrics[i] == m;
    }
  }

  // ---- what App does with the sheet's specification ----

  /** A filter specification the sheet emits is never rejected by App while the base metric is registered. */
  lemma SheetFilterSpecAccepted(businessName: string, slug: string, description: string, rows: seq<FilterRow>,
                                base: Metric, metrics: seq<Metric>, now: nat, nowIso: string)
    requires BaseMetric(metrics, Some(base.slug)) == Some(base)
    requires FilterSubmission(businessName, slug, description, rows, metrics).Ok?
    ensures DeriveMetric(metrics, Some(base.slug),
                         FilterSubmission(businessName, slug, description, rows, metrics).value, now, nowIso).Some?
  {
  }

  /** An arithmetic specification the sheet emits is never rejected by App while the base metric is registered. */
  lemma SheetArithmeticSpecAccepted(businessName: string, slug: string, description: string,
                                    otherMetricSlug: string, operator: Operator, coefficient: string,
                                    base: Metric, metrics: seq<Metric>, parseNumber: string -> JsNumber,
                                    now: nat, nowIso: string)
    requires BaseMetric(metrics, Some(base.slug)) == Some(base)
    requires ArithmeticSubmission(businessName, slug, description, otherMetricSlug, operator, coefficient,
                                  base, metrics, parseNumber).Ok?
    ensures DeriveMetric(metrics, Some(base.slug),
                         ArithmeticSubmission(businessName, slug, description, otherMetricSlug, operator, coefficient,
                                              base, metrics, parseNumber).value, now, nowIso).Some?
  {
    var spec := ArithmeticSubmission(businessName, slug, description, otherMetricSlug, operator, coefficient,
                                     base, metrics, parseNumber).value;
    var i :| 0 <= i < |metrics| && metrics[i].slug == Trim(otherMetricSlug)
             && metrics[i].domain == base.domain && metrics[i].slug != base.slug;
    assert metrics[i].slug == spec.otherMetricSlug && metrics[i].domain == base.domain;
    DeriveMetricRejectsIff(metrics, Some(base.slug), spec, now, nowIso);
  }

  /**
   * A row whose values are only a comma passes the sheet yet yields no clause, so App derives a
   * metric whose filters and technical definition are the base's.
   */
  lemma CommaOnlyRowPassesWithoutClauses(dimensionSlug: string)
    requires dimensionSlug != "" && Trim(dimensionSlug) == dimensionSlug
    ensures TrimmedRows([FilterRow(dimensionSlug, ",")]) == [FilterRow(dimensionSlug, ",")]
    ensures FilterClauses([FilterRow(dimensionSlug, ",")]) == []
  {
    var row := FilterRow(dimensionSlug, ",");
    assert Trimmed(",");
    TrimOfTrimmed(",");
    assert TrimRows([row]) == [row];
    assert Filled(row);
    FilterAll([row], IsFilled());
    assert Split(",", FilterSeparators) == ["", ""] by {
      assert ","[1..] == "";
    }
    assert Trim("") == "";
    assert Tokens(["", ""]) == [] by {
      assert ["", ""][1..] == [""];
      assert [""][1..] == [];
    }
    FilterClausesOfRow(row);
  }

  // ---- row edits ----

  /** The fields an update of one filter row may carry. */
  datatype FilterPatch = FilterPatch(dimensionSlug: Option<string>, values: Option<string>)

  /** `{ ...row, ...patch }`. */
  function Patched(row: FilterRow, patch: FilterPatch): (r: FilterRow)
    ensures r.dimensionSlug == (if patch.dimensionSlug.Some? then patch.dimensionSlug.value else row.dimensionSlug)
    ensures r.values == (if patch.values.Some? then patch.values.value else row.values)
  {
    FilterRow(patch.dimensionSlug.GetOr(row.dimensionSlug), patch.values.GetOr(row.values))
  }

  /** `rows.filter((_, i) => i !== index)`. */
  function RemoveAt(rows: seq<FilterRow>, index: nat): (r: seq<FilterRow>)
    ensures index < |rows| ==>
      && |r| == |rows| - 1
      && (forall i | 0 <= i < index :: r[i] == rows[i])
      && (forall i | index <= i < |r| :: r[i] == rows[i + 1])
    ensures index >= |rows| ==> r == rows
  {
    if index < |rows| then rows[..index] + rows[index + 1..] else rows
  }

  /** The sheet's form state. */
  class SheetForm {
    var mode: Mode
    var businessName: string
    var slug: string
    var description: string
    var dimensionFilters: seq<FilterRow>
    var otherMetricSlug: string
    var operator: Operator
    var coefficient: string
    var message: Option<string>

    constructor()
      ensures mode == FilterMode && businessName == "" && slug == "" && description == ""
      ensures dimensionFilters == [] && otherMetricSlug == "" && operator == Add && coefficient == "1"
      ensures message.None?
    {
      mode := FilterMode;
      businessName := "";
      slug := "";
      description := "";
      dimensionFilters := [];
      otherMetricSlug := "";
      operator := Add;
      coefficient := "1";
      message := None;
    }

    /** The effect run when the sheet opens: every field back to its start value for `base`. */
    method ResetOnOpen(open: bool, base: Metric)
      modifies this
      ensures !open ==> unchanged(this)
      ensures open ==>
        && mode == FilterMode && businessName == base.businessName + " (derived)"
        && slug == base.slug + "_derived" && description == "" && dimensionFilters == []
        && otherMetricSlug == "" && operator == Add && coefficient == "1" && message.None?
    {
      if !open {
        return;
      }
      mode := FilterMode;
      businessName := base.businessName + " (derived)";
      slug := base.slug + "_derived";
      description := "";
      dimensionFilters := [];
      otherMetricSlug := "";
      operator := Add;
      coefficient := "1";
      message := None;
    }

    /** Switching tabs: only the two known modes are taken, and they clear the message. */
    method ChangeTab(value: string)
      modifies this
      ensures value == "filter" ==> mode == FilterMode && message.None?
      ensures value == "arithmetic" ==> mode == ArithmeticMode && message.None?
      ensures value != "filter" && value != "arithmetic" ==> mode == old(mode) && message == old(message)
      ensures businessName == old(businessName) && slug == old(slug) && description == old(description)
      ensures dimensionFilters == old(dimensionFilters) && otherMetricSlug == old(otherMetricSlug)
      ensures operator == old(operator) && coefficient == old(coefficient)
    {
      if value == "filter" {
        mode := FilterMode;
        message := None;
      } else if value == "arithmetic" {
        mode := ArithmeticMode;
        message := None;
      }
    }

    /** `handleAddFilterRow`: one more row, with empty values and the fallback slug. */
    method AddFilterRow(base: Metric, dimensions: seq<Dimension>)
      modifies this
      ensures dimensionFilters == old(dimensionFilters) + [FilterRow(FallbackSlug(base, dimensions), "")]
      ensures mode == old(mode) && businessName == old(businessName) && slug == old(slug)
      ensures description == old(description) && otherMetricSlug == old(otherMetricSlug)
      ensures operator == old(operator) && coefficient == old(coefficient) && message == old(message)
    {
      dimensionFilters := dimensionFilters + [FilterRow(FallbackSlug(base, dimensions), "")];
    }

    /** `handleUpdateFilter`: the row at `index` merged with the patch; every other row kept. */
    method UpdateFilter(index: nat, patch: FilterPatch)
      requires index < |dimensionFilters|
      modifies this
      ensures |dimensionFilters| == |old(dimensionFilters)|
      ensures dimensionFilters[index] == Patched(old(dimensionFilters)[index], patch)
      ensures forall i | 0 <= i < |dimensionFilters| && i != index :: dimensionFilters[i] == old(dimensionFilters)[i]
      ensures mode == old(mode) && businessName == old(businessName) && slug == old(slug)
      ensures description == old(description) && otherMetricSlug == old(otherMetricSlug)
      ensures operator == old(operator) && coefficient == old(coefficient) && message == old(message)
    {
      dimensionFilters := dimensionFilters[index := Patched(dimensionFilters[index], patch)];
    }

    /** `handleRemoveFilterRow`: the row at `index` removed; nothing happens for an index past the end. */
    method RemoveFilterRow(index: nat)
      modifies this
      ensures dimensionFilters == RemoveAt(old(dimensionFilters), index)
      ensures mode == old(mode) && businessName == old(businessName) && slug == old(slug)
      ensures description == old(description) && otherMetricSlug == old(otherMetricSlug)
      ensures operator == old(operator) && coefficient == old(coefficient) && message == old(message)
    {
      dimensionFilters := RemoveAt(dimensionFilters, index);
    }

    /** Submitting the filter tab: the specification to hand to App, or the message shown. */
    method SubmitFilter(metrics: seq<Metric>) returns (spec: Option<DerivedSpec>)
      modifies this
      ensures match FilterSubmission(old(businessName), old(slug), old(description), old(dimensionFilters), metrics)
        case Ok(s) => spec == Some(s) && message == old(message)
        case Err(m) => spec.None? && message == Some(m)
      ensures mode == old(mode) && businessName == old(businessName) && slug == old(slug)
      ensures description == old(description) && dimensionFilters == old(dimensionFilters)
      ensures otherMetricSlug == old(otherMetricSlug) && operator == old(operator) && coefficient == old(coefficient)
    {
      match FilterSubmission(businessName, slug, description, dimensionFilters, metrics)
      case Ok(s) =>
        spec := Some(s);
      case Err(m) =>
        message := Some(m);
        spec := None;
    }

    /** Submitting the arithmetic tab: the specification to hand to App, or the message shown. */
    method SubmitArithmetic(base: Metric, metrics: seq<Metric>, parseNumber: string -> JsNumber)
      returns (spec: Option<DerivedSpec>)
      modifies this
      ensures match ArithmeticSubmission(old(businessName), old(slug), old(description), old(otherMetricSlug),
                                         old(operator), old(coefficient), base, metrics, parseNumber)
        case Ok(s) => spec == Some(s) && message == old(message)
        case Err(m) => spec.None? && message == Some(m)
      ensures mode == old(mode) && businessName == old(businessName) && slug == old(slug)
      ensures description == old(description) && dimensionFilters == old(dimensionFilters)
      ensures otherMetricSlug == old(otherMetricSlug) && operator == old(operator) && coefficient == old(coefficient)
    {
      match ArithmeticSubmission(businessName, slug, description, otherMetricSlug, operator, coefficient,
                                 base, metrics, parseNumber)
      case Ok(s) =>
        spec := Some(s);
      case Err(m) =>
        message := Some(m);
        spec := None;
    }
  }
}
