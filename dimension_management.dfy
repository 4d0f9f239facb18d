/**
 * The dimension registry view: the selected dimension, the metrics bound to it, and the check of
 * one metric's binding to it.
 */
module DimensionManagement {
  import opened Wrappers
  import opened Strings
  import opened Seqs
  import opened Types

  /** The initial selection: the first dimension's slug, or none when there are no dimensions. */
  function InitialSelection(dimensions: seq<Dimension>): (r: Option<string>)
    ensures r.None? <==> |dimensions| == 0
    ensures r.Some? ==> r.value == dimensions[0].slug
  {
    if |dimensions| > 0 then Some(dimensions[0].slug) else None
  }

  function HasDimensionSlug(slug: string): Dimension -> bool {
    (d: Dimension) => d.slug == slug
  }

  /** `selected`: the first dimension with the selected slug; nothing when none is selected. */
  function Selected(dimensions: seq<Dimension>, selectedSlug: Option<string>): (r: Option<Dimension>)
    ensures r.Some? ==> selectedSlug.Some? && r.value in dimensions && r.value.slug == selectedSlug.value
    ensures selectedSlug.Some? && r.None? ==> forall d | d in dimensions :: d.slug != selectedSlug.value
    ensures r.Some? ==> exists i | 0 <= i < |dimensions| ::
      && dimensions[i] == r.value
      && forall j | 0 <= j < i :: dimensions[j].slug != selectedSlug.value
  {
    match selectedSlug
    case None => None
    case Some(slug) => Find(dimensions, HasDimensionSlug(slug))
  }

  /** The initial selection picks the first dimension itself. */
  lemma InitialSelectionSelectsFirst(dimensions: seq<Dimension>)
    requires |dimensions| > 0
    ensures Selected(dimensions, InitialSelection(dimensions)) == Some(dimensions[0])
  {
    assert HasDimensionSlug(dimensions[0].slug)(dimensions[0]);
    FindConcat([dimensions[0]], dimensions[1..], HasDimensionSlug(dimensions[0].slug));
    assert [dimensions[0]] + dimensions[1..] == dimensions;
    assert FirstIndex([dimensions[0]], HasDimensionSlug(dimensions[0].slug)) == Some(0);
  }

  function BoundToFn(d: Dimension): Metric -> bool {
    (m: Metric) => m.slug in d.boundMetricSlugs
  }

  /** `boundMetricsForSelected`: the metrics, in order, whose slug the dimension lists; none without a selection. */
  function BoundMetrics(metrics: seq<Metric>, selected: Option<Dimension>): (r: seq<Metric>)
    ensures selected.None? ==> r == []
    ensures forall m :: m in r <==> selected.Some? && m in metrics && m.slug in selected.value.boundMetricSlugs
  {
    match selected
    case None => []
    case Some(d) => Filter(metrics, BoundToFn(d))
  }

  // ---- binding validation ----

  datatype Validation =
    | Prompt
    | UnknownMetric(slug: string)
    | BindingValid(slug: string, dimensionSlug: string)
    | BindingMissing(slug: string, dimensionSlug: string)

  const PromptMessage: string := "Enter a metric slug and select a dimension first."

  function ValidationMessage(v: Validation): string {
    match v
    case Prompt => PromptMessage
    case UnknownMetric(slug) => "Metric slug \"" + slug + "\" does not exist in the registry."
    case BindingValid(slug, dim) =>
      "Binding is valid: metric \"" + slug + "\" is declared to use dimension \"" + dim + "\"."
    case BindingMissing(slug, dim) =>
      "Binding is missing: metric \"" + slug + "\" does not reference dimension \"" + dim + "\" in the mock data."
  }

  function HasMetricSlug(slug: string): Metric -> bool {
    (m: Metric) => m.slug == slug
  }

  /**
   * `handleValidateBinding`, checked in order: a blank slug or no selection prompts; a slug no
   * metric has does not exist; otherwise the binding is valid exactly when the dimension lists the
   * slug.
   */
  function ValidateBinding(input: string, metrics: seq<Metric>, selected: Option<Dimension>): (r: Validation)
    ensures r.Prompt? <==> Trim(input) == "" || selected.None?
    ensures r.UnknownMetric? <==>
      && Trim(input) != "" && selected.Some?
      && forall m | m in metrics :: m.slug != Trim(input)
    ensures r.BindingValid? <==>
      && Trim(input) != "" && selected.Some?
      && (exists m | m in metrics :: m.slug == Trim(input))
      && Trim(input) in selected.value.boundMetricSlugs
    ensures r.BindingMissing? <==>
      && Trim(input) != "" && selected.Some?
      && (exists m | m in metrics :: m.slug == Trim(input))
      && Trim(input) !in selected.value.boundMetricSlugs
    ensures !r.Prompt? ==> r.slug == Trim(input)
    ensures r.BindingValid? || r.BindingMissing? ==> r.dimensionSlug == selected.value.slug
  {
    var slug := Trim(input);
    if slug == "" || selected.None? then Prompt
    else
      match Find(metrics, HasMetricSlug(slug))
      case None => UnknownMetric(slug)
      case Some(_) =>
        if slug in selected.value.boundMetricSlugs then BindingValid(slug, selected.value.slug)
        else BindingMissing(slug, selected.value.slug)
  }

  /** A binding checks as valid exactly when the metric is among those listed as bound to the selection. */
  lemma ValidIffListedAsBound(input: string, metrics: seq<Metric>, selected: Option<Dimension>)
    requires Trim(input) != ""
    ensures ValidateBinding(input, metrics, selected).BindingValid? <==>
      exists m | m in BoundMetrics(metrics, selected) :: m.slug == Trim(input)
  {
    if ValidateBinding(input, metrics, selected).BindingValid? {
      var m :| m in metrics && m.slug == Trim(input);
      assert m in BoundMetrics(metrics, selected);
    }
  }
}
