/**
 * The application shell: the flat placeholder trend, derived-metric synthesis, the domain
 * fallback of the header selector, and the registry of metrics, dimensions, metric sets,
 * tags, domains and categories with the handlers that replace them.
 *
 * `now` (milliseconds, from `Date.now()`) and `nowIso` (its ISO rendering) are parameters.
 */
module App {
  import opened Wrappers
  import opened Strings
  import opened Seqs
  import opened Types
  import opened Utils

  // ---- createFlatTrend ----

  /** The date of day `day` of January 2026, the day zero-padded to two digits. */
  function FlatTrendDate(day: nat): string {
    "2026-01-" + PadStart(NatToString(day), 2, '0')
  }

  function FlatTrendPoint(i: nat): TrendPoint {
    TrendPoint(FlatTrendDate(i), (100 + i * 2) as real)
  }

  /** The value `createFlatTrend` returns. */
  function FlatTrend(): (r: seq<TrendPoint>)
    ensures |r| == 10
  {
    seq(10, k requires 0 <= k < 10 => FlatTrendPoint(k + 1))
  }

  /** Day `day` of the flat trend, written with two digits. */
  lemma FlatTrendDateDigits(day: nat)
    requires 1 <= day <= 10
    ensures FlatTrendDate(day) == "2026-01-" + [DigitChar(day / 10), DigitChar(day % 10)]
  {
    if day < 10 {
      assert NatToString(day) == [DigitChar(day)];
    } else {
      assert NatToString(10) == NatToString(1) + [DigitChar(0)];
    }
  }

  /** The flat trend runs over 2026-01-01 … 2026-01-10 with values 102, 104, …, 120. */
  lemma FlatTrendContents()
    ensures forall k | 0 <= k < 10 ::
      FlatTrend()[k].date == "2026-01-" + [DigitChar((k + 1) / 10), DigitChar((k + 1) % 10)]
      && FlatTrend()[k].value == (102 + 2 * k) as real
  {
    forall k | 0 <= k < 10
      ensures FlatTrend()[k].date == "2026-01-" + [DigitChar((k + 1) / 10), DigitChar((k + 1) % 10)]
    {
      FlatTrendDateDigits(k + 1);
    }
  }

  /** `createFlatTrend`: a counted loop pushing one point per day. */
  method CreateFlatTrend() returns (trend: seq<TrendPoint>)
    ensures trend == FlatTrend()
  {
    trend := [];
    var i := 1;
    while i <= 10
      invariant 1 <= i <= 11
      invariant |trend| == i - 1
      invariant forall k | 0 <= k < i - 1 :: trend[k] == FlatTrendPoint(k + 1)
    {
      trend := trend + [TrendPoint(FlatTrendDate(i), (100 + i * 2) as real)];
      i := i + 1;
    }
  }

  // ---- lookups ----

  function MetricId(now: nat): string {
    "m-" + NatToString(now)
  }

  function QueryId(now: nat): string {
    "q-" + NatToString(now)
  }

  function HasSlug(slug: string): Metric -> bool {
    (m: Metric) => m.slug == slug
  }

  function HasSlugInDomain(slug: string, domain: string): Metric -> bool {
    (m: Metric) => m.slug == slug && m.domain == domain
  }

  /** Some metric of `metrics` has slug `slug`. */
  predicate SlugTaken(metrics: seq<Metric>, slug: string) {
    exists i | 0 <= i < |metrics| :: metrics[i].slug == slug
  }

  /** No two metrics share a slug. */
  predicate UniqueSlugs(metrics: seq<Metric>) {
    forall i, j | 0 <= i < j < |metrics| :: metrics[i].slug != metrics[j].slug
  }

  /**
   * The base metric of the derivation sheet: absent when the base slug is unset or empty,
   * otherwise the first metric with that slug.
   */
  function BaseMetric(metrics: seq<Metric>, baseSlug: Option<string>): (r: Option<Metric>)
    ensures r.None? <==> baseSlug.None? || baseSlug.value == "" || !SlugTaken(metrics, baseSlug.value)
    ensures r.Some? ==> r.value in metrics && r.value.slug == baseSlug.value
  {
    if baseSlug.None? || baseSlug.value == "" then None
    else Find(metrics, HasSlug(baseSlug.value))
  }

  /** App's lookup of the other operand: the first metric with that slug in the base's domain. */
  function OtherMetric(metrics: seq<Metric>, slug: string, domain: string): (r: Option<Metric>)
    ensures r.None? <==> forall i | 0 <= i < |metrics| :: !(metrics[i].slug == slug && metrics[i].domain == domain)
    ensures r.Some? ==> r.value in metrics && r.value.slug == slug && r.value.domain == domain
  {
    Find(metrics, HasSlugInDomain(slug, domain))
  }

  // ---- filter-mode synthesis ----

  /** The clause one row contributes: absent when its values hold no token. */
  function RowClause(row: FilterRow): Option<string> {
    var tokens := NormalizeFilters(row.values);
    if tokens == [] then None
    else Some(row.dimensionSlug + " IN (" + Join(tokens, ", ") + ")")
  }

  /** The clauses of all rows, in row order, skipping rows without tokens. */
  function FilterClauses(rows: seq<FilterRow>): (r: seq<string>)
    ensures |r| <= |rows|
    decreases |rows|
  {
    if |rows| == 0 then []
    else
      var rest := FilterClauses(rows[1..]);
      match RowClause(rows[0])
      case None => rest
      case Some(c) => [c] + rest
  }

  /** Clauses of consecutive row lists are concatenated: one clause per productive row, in order. */
  lemma {:induction false} FilterClausesAppend(a: seq<FilterRow>, b: seq<FilterRow>)
    ensures FilterClauses(a + b) == FilterClauses(a) + FilterClauses(b)
    decreases |a|
  {
    if |a| == 0 {
      assert a + b == b;
    } else {
      assert (a + b)[0] == a[0] && (a + b)[1..] == a[1..] + b;
      FilterClausesAppend(a[1..], b);
    }
  }

  /** A single row contributes exactly its clause, and nothing when its values hold no token. */
  lemma FilterClausesOfRow(row: FilterRow)
    ensures NormalizeFilters(row.values) == [] ==> FilterClauses([row]) == []
    ensures NormalizeFilters(row.values) != [] ==>
      FilterClauses([row]) == [row.dimensionSlug + " IN (" + Join(NormalizeFilters(row.values), ", ") + ")"]
  {
    assert [row][1..] == [];
  }

  /** There are no clauses exactly when no row holds a token. */
  lemma {:induction false} FilterClausesEmptyIff(rows: seq<FilterRow>)
    ensures FilterClauses(rows) == [] <==> forall i | 0 <= i < |rows| :: NormalizeFilters(rows[i].values) == []
    decreases |rows|
  {
    if |rows| > 0 {
      FilterClausesEmptyIff(rows[1..]);
      assert forall i | 1 <= i < |rows| :: rows[i] == rows[1..][i - 1];
    }
  }

  /** `"AND"` when the definition mentions "where" in any letter case, else `"WHERE"`. */
  function WherePrefix(technicalDefinition: string): string {
    if Contains(ToLower(technicalDefinition), "where") then "AND" else "WHERE"
  }

  function WhereLine(technicalDefinition: string, clauses: seq<string>): string {
    WherePrefix(technicalDefinition) + " " + Join(clauses, " AND ")
  }

  function FilterTechnicalDefinition(technicalDefinition: string, clauses: seq<string>): string {
    if |clauses| == 0 then technicalDefinition
    else technicalDefinition + "\n" + WhereLine(technicalDefinition, clauses)
  }

  /** The filters of the base's first query, or none. */
  function BaseFilters(base: Metric): seq<string> {
    if |base.queryDefinitions| > 0 then base.queryDefinitions[0].filters else []
  }

  /** The first query with a fresh id and the merged filters, or a computed query when the base has none. */
  function FilterQuery(base: Metric, mergedFilters: seq<string>, now: nat): QueryDefinition {
    if |base.queryDefinitions| > 0 then
      base.queryDefinitions[0].(id := QueryId(now), filters := mergedFilters)
    else
      QueryDefinition(QueryId(now), "Computed expression", base.slug, "", "SUM", "", mergedFilters, [], None)
  }

  function RowSlugs(rows: seq<FilterRow>): seq<string> {
    seq(|rows|, i requires 0 <= i < |rows| => rows[i].dimensionSlug)
  }

  /** `spec.description?.trim() ? spec.description.trim() : fallback`. */
  function DescriptionOr(description: Option<string>, fallback: string): string {
    match NonBlankOpt(description)
    case Some(d) => d
    case None => fallback
  }

  /** The fields every derived metric shares, from its base, its name and slug, and the clock. */
  function DerivedMetricRecord(base: Metric, businessName: string, slug: string, businessDefinition: string,
                               technicalDefinition: string, query: QueryDefinition,
                               boundDimensionSlugs: seq<string>, now: nat, nowIso: string): Metric
  {
    Metric(MetricId(now), businessName, slug, base.categoryPath, businessDefinition, technicalDefinition,
           Draft, base.domain, base.owners, [query], FlatTrend(), base.topDimensions, boundDimensionSlugs,
           Some(nowIso), Some(nowIso), Some(0.0), None)
  }

  function FilterDerived(base: Metric, businessName: string, slug: string, description: Option<string>,
                         rows: seq<FilterRow>, now: nat, nowIso: string): Metric
  {
    var clauses := FilterClauses(rows);
    var businessDefinition := DescriptionOr(description,
      base.businessDefinition + " (derived with filters on " + Join(RowSlugs(rows), ", ") + ")");
    DerivedMetricRecord(base, businessName, slug, businessDefinition,
                        FilterTechnicalDefinition(base.technicalDefinition, clauses),
                        FilterQuery(base, BaseFilters(base) + clauses, now),
                        Dedup(base.boundDimensionSlugs + RowSlugs(rows)), now, nowIso)
  }

  // ---- arithmetic-mode synthesis ----

  function OpSymbol(op: Operator): string {
    match op
    case Add => "+"
    case Sub => "-"
    case Mul => "*"
    case Div => "/"
  }

  /** `other.slug`, or `"<other> * <c>"` when a usable coefficient other than 1 is given. */
  function Rhs(otherSlug: string, coefficient: Option<JsNumber>): string {
    match coefficient
    case Some(Num(v, text)) => if v != 1.0 then otherSlug + " * " + text else otherSlug
    case _ => otherSlug
  }

  function Expression(baseSlug: string, op: Operator, otherSlug: string, coefficient: Option<JsNumber>): string {
    baseSlug + " " + OpSymbol(op) + " " + Rhs(otherSlug, coefficient)
  }

  function ArithmeticLines(baseSlug: string, otherSlug: string, slug: string, expression: string): seq<string> {
    ["-- Derived arithmetic metric", "-- Base: " + baseSlug, "-- Other: " + otherSlug, "SELECT",
     "  " + expression + " AS " + slug + ";"]
  }

  function ArithmeticDerived(base: Metric, other: Metric, businessName: string, slug: string,
                             description: Option<string>, op: Operator, coefficient: Option<JsNumber>,
                             now: nat, nowIso: string): Metric
  {
    var expression := Expression(base.slug, op, other.slug, coefficient);
    var query := QueryDefinition(QueryId(now), "Computed expression", base.slug + "," + other.slug,
      "derived_expression", "NONE",
      if |base.queryDefinitions| > 0 then base.queryDefinitions[0].businessDate else "", [], [], None);
    var businessDefinition := DescriptionOr(description,
      "Derived metric: " + base.businessName + " " + OpSymbol(op) + " " + other.businessName);
    DerivedMetricRecord(base, businessName, slug, businessDefinition,
                        Join(ArithmeticLines(base.slug, other.slug, slug, expression), "\n"), query,
                        Dedup(base.boundDimensionSlugs + other.boundDimensionSlugs), now, nowIso)
  }

  /**
   * `handleCreateDerivedMetric` up to the append: the metric to add, or `None` when the
   * registry is left unchanged.
   */
  function DeriveMetric(metrics: seq<Metric>, baseSlug: Option<string>, spec: DerivedSpec,
                        now: nat, nowIso: string): Option<Metric>
  {
    match BaseMetric(metrics, baseSlug)
    case None => None
    case Some(base) =>
      if SlugTaken(metrics, spec.slug) then None
      else
        match spec
        case FilterSpec(name, slug, description, rows) =>
          Some(FilterDerived(base, name, slug, description, rows, now, nowIso))
        case ArithmeticSpec(name, slug, description, otherSlug, op, coefficient) =>
          match OtherMetric(metrics, otherSlug, base.domain)
          case None => None
          case Some(other) => Some(ArithmeticDerived(base, other, name, slug, description, op, coefficient, now, nowIso))
  }

  /**
   * The registry is left unchanged exactly when the base slug is unset, empty or unknown, the
   * new slug is taken, or (arithmetic mode) no metric with the other slug lies in the base's
   * domain. A filter spec without clauses is not rejected.
   */
  lemma DeriveMetricRejectsIff(metrics: seq<Metric>, baseSlug: Option<string>, spec: DerivedSpec,
                               now: nat, nowIso: string)
    ensures var base := BaseMetric(metrics, baseSlug);
      DeriveMetric(metrics, baseSlug, spec, now, nowIso).None? <==>
        baseSlug.None? || baseSlug.value == "" || !SlugTaken(metrics, baseSlug.value)
        || SlugTaken(metrics, spec.slug)
        || (spec.ArithmeticSpec? &&
            forall i | 0 <= i < |metrics| ::
              !(metrics[i].slug == spec.otherMetricSlug && metrics[i].domain == base.value.domain))
  {
  }

  /**
   * A derived metric is a Draft with heat 0, a fresh id and slug, one query, the flat trend, and
   * the base's category path, domain, owners and top dimensions; a non-blank description becomes
   * its business definition, trimmed.
   */
  lemma DerivedCommonFields(metrics: seq<Metric>, baseSlug: Option<string>, spec: DerivedSpec,
                            now: nat, nowIso: string)
    requires DeriveMetric(metrics, baseSlug, spec, now, nowIso).Some?
    ensures var m := DeriveMetric(metrics, baseSlug, spec, now, nowIso).value;
      var base := BaseMetric(metrics, baseSlug).value;
      && m.status == Draft && m.heat == Some(0.0)
      && m.id == MetricId(now) && m.createdAt == Some(nowIso) && m.updatedAt == Some(nowIso)
      && m.businessName == spec.businessName && m.slug == spec.slug && !SlugTaken(metrics, m.slug)
      && m.categoryPath == base.categoryPath && m.domain == base.domain && m.owners == base.owners
      && m.topDimensions == base.topDimensions && m.trend30d == FlatTrend()
      && |m.queryDefinitions| == 1 && m.queryDefinitions[0].id == QueryId(now)
      && m.larkSheetLink.None?
      && (spec.description.Some? && !AllSpace(spec.description.value) ==>
            m.businessDefinition == Trim(spec.description.value))
  {
  }

  /** Appending a derived metric keeps the slugs of the registry unique. */
  lemma DeriveKeepsSlugsUnique(metrics: seq<Metric>, baseSlug: Option<string>, spec: DerivedSpec,
                               now: nat, nowIso: string)
    requires UniqueSlugs(metrics)
    requires DeriveMetric(metrics, baseSlug, spec, now, nowIso).Some?
    ensures UniqueSlugs(metrics + [DeriveMetric(metrics, baseSlug, spec, now, nowIso).value])
  {
    var m := DeriveMetric(metrics, baseSlug, spec, now, nowIso).value;
    DerivedCommonFields(metrics, baseSlug, spec, now, nowIso);
    var ms := metrics + [m];
    forall i, j | 0 <= i < j < |ms| ensures ms[i].slug != ms[j].slug {
      if j == |metrics| {
        assert ms[i] == metrics[i];
      } else {
        assert ms[i] == metrics[i] && ms[j] == metrics[j];
      }
    }
  }

  /** In filter mode a successful derivation yields `FilterDerived` of the base metric. */
  lemma DeriveMetricFilterMode(metrics: seq<Metric>, baseSlug: Option<string>, spec: DerivedSpec,
                               now: nat, nowIso: string)
    requires spec.FilterSpec?
    requires DeriveMetric(metrics, baseSlug, spec, now, nowIso).Some?
    ensures BaseMetric(metrics, baseSlug).Some?
    ensures DeriveMetric(metrics, baseSlug, spec, now, nowIso).value ==
      FilterDerived(BaseMetric(metrics, baseSlug).value, spec.businessName, spec.slug, spec.description,
                    spec.dimensionFilters, now, nowIso)
  {
  }

  /** In arithmetic mode a successful derivation yields `ArithmeticDerived` of the base and the other metric. */
  lemma DeriveMetricArithmeticMode(metrics: seq<Metric>, baseSlug: Option<string>, spec: DerivedSpec,
                                   now: nat, nowIso: string)
    requires spec.ArithmeticSpec?
    requires DeriveMetric(metrics, baseSlug, spec, now, nowIso).Some?
    ensures BaseMetric(metrics, baseSlug).Some?
    ensures OtherMetric(metrics, spec.otherMetricSlug, BaseMetric(metrics, baseSlug).value.domain).Some?
    ensures DeriveMetric(metrics, baseSlug, spec, now, nowIso).value ==
      ArithmeticDerived(BaseMetric(metrics, baseSlug).value,
                        OtherMetric(metrics, spec.otherMetricSlug, BaseMetric(metrics, baseSlug).value.domain).value,
                        spec.businessName, spec.slug, spec.description, spec.operator, spec.coefficient, now, nowIso)
  {
  }

  /** Clauses of rows whose slugs have no newline have no newline: their tokens never do. */
  lemma {:induction false} ClausesFreeOfNewline(rows: seq<FilterRow>)
    requires forall i | 0 <= i < |rows| :: FreeOf(rows[i].dimensionSlug, {'\n'})
    ensures forall i | 0 <= i < |FilterClauses(rows)| :: FreeOf(FilterClauses(rows)[i], {'\n'})
    decreases |rows|
  {
    if |rows| > 0 {
      ClausesFreeOfNewline(rows[1..]);
      var tokens := NormalizeFilters(rows[0].values);
      if tokens != [] {
        FreeOfJoin(tokens, ", ", {'\n'});
        var a := rows[0].dimensionSlug + " IN (";
        FreeOfConcat(rows[0].dimensionSlug, " IN (", {'\n'});
        FreeOfConcat(a, Join(tokens, ", "), {'\n'});
        FreeOfConcat(a + Join(tokens, ", "), ")", {'\n'});
      }
    }
  }

  /**
   * Filter mode: without clauses the technical definition is the base's; otherwise its lines
   * are the base's lines followed by exactly one `WHERE`/`AND` line holding every clause.
   */
  lemma FilterTechnicalDefinitionLines(technicalDefinition: string, rows: seq<FilterRow>)
    requires forall i | 0 <= i < |rows| :: FreeOf(rows[i].dimensionSlug, {'\n'})
    ensures FilterClauses(rows) == [] ==>
      FilterTechnicalDefinition(technicalDefinition, FilterClauses(rows)) == technicalDefinition
    ensures FilterClauses(rows) != [] ==>
      Split(FilterTechnicalDefinition(technicalDefinition, FilterClauses(rows)), {'\n'}) ==
        Split(technicalDefinition, {'\n'}) + [WhereLine(technicalDefinition, FilterClauses(rows))]
  {
    var clauses := FilterClauses(rows);
    if clauses != [] {
      var line := WhereLine(technicalDefinition, clauses);
      ClausesFreeOfNewline(rows);
      FreeOfJoin(clauses, " AND ", {'\n'});
      FreeOfConcat(WherePrefix(technicalDefinition) + " ", Join(clauses, " AND "), {'\n'});
      SplitOfFree(line, {'\n'});
      SplitAppend(technicalDefinition, '\n', line, {'\n'});
      assert technicalDefinition + "\n" + line == technicalDefinition + ['\n'] + line;
    }
  }

  /**
   * Filter mode: the new query's filters are the base's first-query filters followed by the
   * clauses; the bound dimensions are the base's and every row's slug, each once.
   */
  lemma FilterDerivedQueryAndBindings(base: Metric, businessName: string, slug: string, description: Option<string>,
                                      rows: seq<FilterRow>, now: nat, nowIso: string)
    ensures var m := FilterDerived(base, businessName, slug, description, rows, now, nowIso);
      && m.queryDefinitions[0].filters == BaseFilters(base) + FilterClauses(rows)
      && m.queryDefinitions[0].id == QueryId(now)
      && NoDup(m.boundDimensionSlugs)
      && (forall x :: x in m.boundDimensionSlugs <==>
            x in base.boundDimensionSlugs || exists i | 0 <= i < |rows| :: rows[i].dimensionSlug == x)
  {
    var m := FilterDerived(base, businessName, slug, description, rows, now, nowIso);
    var q := FilterQuery(base, BaseFilters(base) + FilterClauses(rows), now);
    assert m.queryDefinitions == [q];
    assert m.boundDimensionSlugs == Dedup(base.boundDimensionSlugs + RowSlugs(rows));
    assert q.filters == BaseFilters(base) + FilterClauses(rows) && q.id == QueryId(now);
    RowBindings(base.boundDimensionSlugs, rows);
  }

  /**
   * Filter mode: the query is the base's first query with only its id and filters replaced, or a
   * computed query over the base's slug when the base has none; the technical definition gains
   * the clauses; without a non-blank description, the business definition names the rows' slugs.
   */
  lemma FilterDerivedDefinitions(base: Metric, businessName: string, slug: string, description: Option<string>,
                                 rows: seq<FilterRow>, now: nat, nowIso: string)
    ensures var m := FilterDerived(base, businessName, slug, description, rows, now, nowIso);
      && m.technicalDefinition == FilterTechnicalDefinition(base.technicalDefinition, FilterClauses(rows))
      && |m.queryDefinitions| == 1
      && (|base.queryDefinitions| > 0 ==>
            m.queryDefinitions[0] ==
              base.queryDefinitions[0].(id := QueryId(now), filters := base.queryDefinitions[0].filters + FilterClauses(rows)))
      && (|base.queryDefinitions| == 0 ==>
            m.queryDefinitions[0] ==
              QueryDefinition(QueryId(now), "Computed expression", base.slug, "", "SUM", "", FilterClauses(rows), [], None))
      && (description.Some? && !AllSpace(description.value) ==> m.businessDefinition == Trim(description.value))
      && (description.None? || AllSpace(description.value) ==>
            m.businessDefinition == base.businessDefinition + " (derived with filters on " + Join(RowSlugs(rows), ", ") + ")")
  {
    if |base.queryDefinitions| == 0 {
      assert BaseFilters(base) + FilterClauses(rows) == FilterClauses(rows);
    }
  }

  /** The bindings of a filter-mode metric: the base's and the rows' slugs, each once. */
  lemma RowBindings(bound: seq<string>, rows: seq<FilterRow>)
    ensures NoDup(Dedup(bound + RowSlugs(rows)))
    ensures forall x :: x in Dedup(bound + RowSlugs(rows)) <==>
      x in bound || exists i | 0 <= i < |rows| :: rows[i].dimensionSlug == x
  {
    RowSlugsMembers(rows);
    assert forall x :: x in bound + RowSlugs(rows) <==> x in bound || x in RowSlugs(rows);
  }

  lemma RowSlugsMembers(rows: seq<FilterRow>)
    ensures forall x :: x in RowSlugs(rows) <==> exists i | 0 <= i < |rows| :: rows[i].dimensionSlug == x
  {
    forall x ensures x in RowSlugs(rows) <==> exists i | 0 <= i < |rows| :: rows[i].dimensionSlug == x {
      if exists i | 0 <= i < |rows| :: rows[i].dimensionSlug == x {
        var k :| 0 <= k < |rows| && rows[k].dimensionSlug == x;
        assert RowSlugs(rows)[k] == x;
      }
    }
  }

  /** An arithmetic expression holds no newline when its slugs and coefficient text hold none. */
  lemma ExpressionFreeOfNewline(baseSlug: string, op: Operator, otherSlug: string, coefficient: Option<JsNumber>)
    requires FreeOf(baseSlug, {'\n'}) && FreeOf(Rhs(otherSlug, coefficient), {'\n'})
    ensures FreeOf(Expression(baseSlug, op, otherSlug, coefficient), {'\n'})
  {
    var rhs := Rhs(otherSlug, coefficient);
    FreeOfConcat(baseSlug, " ", {'\n'});
    FreeOfConcat(baseSlug + " ", OpSymbol(op), {'\n'});
    FreeOfConcat(baseSlug + " " + OpSymbol(op), " ", {'\n'});
    FreeOfConcat(baseSlug + " " + OpSymbol(op) + " ", rhs, {'\n'});
  }

  /** The five lines of an arithmetic definition come back apart when split on newlines. */
  lemma ArithmeticLinesSplit(baseSlug: string, otherSlug: string, slug: string, expression: string)
    requires FreeOf(baseSlug, {'\n'}) && FreeOf(otherSlug, {'\n'}) && FreeOf(slug, {'\n'})
    requires FreeOf(expression, {'\n'})
    ensures Split(Join(ArithmeticLines(baseSlug, otherSlug, slug, expression), "\n"), {'\n'}) ==
      ArithmeticLines(baseSlug, otherSlug, slug, expression)
  {
    var lines := ArithmeticLines(baseSlug, otherSlug, slug, expression);
    FreeOfConcat("-- Base: ", baseSlug, {'\n'});
    FreeOfConcat("-- Other: ", otherSlug, {'\n'});
    FreeOfConcat("  ", expression, {'\n'});
    FreeOfConcat("  " + expression, " AS ", {'\n'});
    FreeOfConcat("  " + expression + " AS ", slug, {'\n'});
    FreeOfConcat("  " + expression + " AS " + slug, ";", {'\n'});
    assert "\n" == ['\n'];
    SplitJoin(lines, '\n', {'\n'});
  }

  /**
   * Arithmetic mode: the technical definition is five lines naming the base, the other metric
   * and the expression `<base> <op> <rhs> AS <slug>;`; the query is a computed expression over
   * both slugs without filters or analysis dimensions; without a non-blank description, the
   * business definition names both metrics and the operator; the bound dimensions are the base's
   * and the other's, each once.
   */
  lemma ArithmeticDerivedShape(base: Metric, other: Metric, businessName: string, slug: string,
                               description: Option<string>, op: Operator, coefficient: Option<JsNumber>,
                               now: nat, nowIso: string)
    ensures var m := ArithmeticDerived(base, other, businessName, slug, description, op, coefficient, now, nowIso);
      var lines := ArithmeticLines(base.slug, other.slug, slug, Expression(base.slug, op, other.slug, coefficient));
      && m.technicalDefinition == Join(lines, "\n")
      && (FreeOf(base.slug, {'\n'}) && FreeOf(other.slug, {'\n'}) && FreeOf(slug, {'\n'})
          && FreeOf(Rhs(other.slug, coefficient), {'\n'}) ==>
            Split(m.technicalDefinition, {'\n'}) == lines)
      && |m.queryDefinitions| == 1 && m.queryDefinitions[0].filters == []
      && m.queryDefinitions[0].source == base.slug + "," + other.slug
      && m.queryDefinitions[0].kind == "Computed expression"
      && m.queryDefinitions[0].originField == "derived_expression"
      && m.queryDefinitions[0].aggregate == "NONE"
      && m.queryDefinitions[0].businessDate ==
           (if |base.queryDefinitions| > 0 then base.queryDefinitions[0].businessDate else "")
      && m.queryDefinitions[0].analysisDimensions == [] && m.queryDefinitions[0].link.None?
      && (description.Some? && !AllSpace(description.value) ==> m.businessDefinition == Trim(description.value))
      && (description.None? || AllSpace(description.value) ==>
            m.businessDefinition == "Derived metric: " + base.businessName + " " + OpSymbol(op) + " " + other.businessName)
      && NoDup(m.boundDimensionSlugs)
      && (forall x :: x in m.boundDimensionSlugs <==> x in base.boundDimensionSlugs || x in other.boundDimensionSlugs)
  {
    if FreeOf(base.slug, {'\n'}) && FreeOf(other.slug, {'\n'}) && FreeOf(slug, {'\n'})
       && FreeOf(Rhs(other.slug, coefficient), {'\n'}) {
      ExpressionFreeOfNewline(base.slug, op, other.slug, coefficient);
      ArithmeticLinesSplit(base.slug, other.slug, slug, Expression(base.slug, op, other.slug, coefficient));
    }
  }

  /**
   * The right-hand side is the other slug alone exactly when no coefficient is given, it is not
   * a number, or it equals 1; otherwise it is `<other> * <coefficient text>`.
   */
  lemma RhsCases(otherSlug: string, coefficient: Option<JsNumber>)
    ensures Rhs(otherSlug, coefficient) == otherSlug <==>
      coefficient.None? || coefficient.value.NaN? || coefficient.value.value == 1.0
    ensures coefficient.Some? && coefficient.value.Num? && coefficient.value.value != 1.0 ==>
      Rhs(otherSlug, coefficient) == otherSlug + " * " + coefficient.value.text
  {
    if coefficient.Some? && coefficient.value.Num? && coefficient.value.value != 1.0 {
      assert |Rhs(otherSlug, coefficient)| > |otherSlug|;
    }
  }

  // ---- domains ----

  function DomainIds(ds: seq<Domain>): seq<string> {
    seq(|ds|, i requires 0 <= i < |ds| => ds[i].id)
  }

  function HasId(id: string): Domain -> bool {
    (d: Domain) => d.id == id
  }

  /** `uniqueDomains`: the domains of `ds`, keeping the first domain for each id. */
  function UniqueById(ds: seq<Domain>): seq<Domain>
    decreases |ds|
  {
    if |ds| == 0 then []
    else
      var u := UniqueById(ds[..|ds| - 1]);
      if ds[|ds| - 1].id in DomainIds(u) then u else u + [ds[|ds| - 1]]
  }

  /** The unique domains carry each id of `ds`, each exactly once. */
  lemma {:induction false} UniqueByIdIds(ds: seq<Domain>)
    ensures NoDup(DomainIds(UniqueById(ds)))
    ensures forall i | 0 <= i < |ds| :: ds[i].id in DomainIds(UniqueById(ds))
    decreases |ds|
  {
    if |ds| > 0 {
      var p := ds[..|ds| - 1];
      var x := ds[|ds| - 1];
      var u := UniqueById(p);
      UniqueByIdIds(p);
      assert forall i | 0 <= i < |p| :: ds[i] == p[i];
      if x.id !in DomainIds(u) {
        var ids := DomainIds(u + [x]);
        assert ids == DomainIds(u) + [x.id];
        forall i, j | 0 <= i < j < |ids| ensures ids[i] != ids[j] {
          if j == |u| {
            assert ids[i] == DomainIds(u)[i];
          }
        }
      }
    }
  }

  /** Each unique domain is the first domain of `ds` with its id. */
  lemma {:induction false} UniqueByIdFirst(ds: seq<Domain>)
    ensures forall i | 0 <= i < |UniqueById(ds)| :: Find(ds, HasId(UniqueById(ds)[i].id)) == Some(UniqueById(ds)[i])
    decreases |ds|
  {
    if |ds| > 0 {
      var p := ds[..|ds| - 1];
      var x := ds[|ds| - 1];
      var u := UniqueById(p);
      UniqueByIdFirst(p);
      assert ds == p + [x];
      forall i | 0 <= i < |u| ensures Find(ds, HasId(u[i].id)) == Some(u[i]) {
        FindAppend(p, [x], HasId(u[i].id));
      }
      if x.id !in DomainIds(u) {
        UniqueByIdIds(p);
        forall i | 0 <= i < |p| ensures !HasId(x.id)(p[i]) {
          assert p[i].id in DomainIds(u);
        }
        FindSkipsUnmatched(p, [x], HasId(x.id));
        assert Find([x], HasId(x.id)) == Some(x);
        assert (u + [x])[|u|] == x;
      }
    }
  }

  /** The unique domains are domains of `ds`, and every first domain of its id is among them. */
  lemma UniqueByIdMembers(ds: seq<Domain>)
    ensures forall d | d in UniqueById(ds) :: d in ds
    ensures forall i | 0 <= i < |ds| && Find(ds, HasId(ds[i].id)) == Some(ds[i]) :: ds[i] in UniqueById(ds)
  {
    var u := UniqueById(ds);
    UniqueByIdFirst(ds);
    UniqueByIdIds(ds);
    forall d | d in u ensures d in ds {
      var k :| 0 <= k < |u| && u[k] == d;
      assert Find(ds, HasId(u[k].id)) == Some(u[k]);
    }
    forall i | 0 <= i < |ds| && Find(ds, HasId(ds[i].id)) == Some(ds[i]) ensures ds[i] in u {
      var j :| 0 <= j < |u| && DomainIds(u)[j] == ds[i].id;
      assert Find(ds, HasId(u[j].id)) == Some(u[j]);
    }
  }

  /** There are unique domains exactly when there are domains. */
  lemma UniqueByIdEmptyIff(ds: seq<Domain>)
    ensures |UniqueById(ds)| == 0 <==> |ds| == 0
  {
    if |ds| > 0 {
      UniqueByIdIds(ds);
      assert ds[0].id in DomainIds(UniqueById(ds));
    }
  }

  /** `uniqueDomains`, computed as the source does: one pass remembering the ids seen. */
  method UniqueDomains(ds: seq<Domain>) returns (r: seq<Domain>)
    ensures r == UniqueById(ds)
  {
    r := [];
    var seen: set<string> := {};
    var i := 0;
    while i < |ds|
      invariant 0 <= i <= |ds|
      invariant r == UniqueById(ds[..i])
      invariant forall id :: id in seen <==> id in DomainIds(r)
    {
      assert ds[..i + 1][..i] == ds[..i];
      if ds[i].id !in seen {
        assert DomainIds(r + [ds[i]]) == DomainIds(r) + [ds[i].id];
        r := r + [ds[i]];
        seen := seen + {ds[i].id};
      }
      i := i + 1;
    }
    assert ds[..|ds|] == ds;
  }

  function IsPermitted(): Domain -> bool {
    (d: Domain) => d.permitted != Some(false)
  }

  /** `permittedDomains`: the unique domains not explicitly marked as not permitted. */
  function PermittedDomains(ds: seq<Domain>): seq<Domain> {
    Filter(UniqueById(ds), IsPermitted())
  }

  /** The header's fallback: the first permitted domain's id, else the first domain's id. */
  function FallbackDomainId(ds: seq<Domain>): Option<string> {
    var permitted := PermittedDomains(ds);
    var unique := UniqueById(ds);
    if |permitted| > 0 then Some(permitted[0].id)
    else if |unique| > 0 then Some(unique[0].id)
    else None
  }

  /**
   * The fallback exists exactly when there are domains and is the id of one of them; when some
   * domain that comes first for its id is permitted, the fallback is the id of a permitted domain.
   * (A permitted domain whose id an earlier unpermitted domain already took does not count.)
   */
  lemma FallbackDomainIdSpec(ds: seq<Domain>)
    ensures FallbackDomainId(ds).None? <==> |ds| == 0
    ensures FallbackDomainId(ds).Some? ==> exists i | 0 <= i < |ds| :: ds[i].id == FallbackDomainId(ds).value
    ensures (exists i | 0 <= i < |ds| :: ds[i].permitted != Some(false) && Find(ds, HasId(ds[i].id)) == Some(ds[i])) ==>
      exists i | 0 <= i < |ds| :: ds[i].id == FallbackDomainId(ds).value && ds[i].permitted != Some(false)
  {
    var unique := UniqueById(ds);
    var permitted := PermittedDomains(ds);
    UniqueByIdMembers(ds);
    if |ds| > 0 {
      UniqueByIdIds(ds);
      assert ds[0].id in DomainIds(unique);
    }
    if |permitted| > 0 {
      assert permitted[0] in unique;
      var k :| 0 <= k < |ds| && ds[k] == permitted[0];
    } else if |unique| > 0 {
      assert unique[0] in unique;
      var k :| 0 <= k < |ds| && ds[k] == unique[0];
    }
    if exists i | 0 <= i < |ds| :: ds[i].permitted != Some(false) && Find(ds, HasId(ds[i].id)) == Some(ds[i]) {
      var i :| 0 <= i < |ds| && ds[i].permitted != Some(false) && Find(ds, HasId(ds[i].id)) == Some(ds[i]);
      assert ds[i] in unique;
      assert ds[i] in permitted;
    }
  }

  /** A permitted domain behind an unpermitted one with the same id is never the fallback. */
  lemma ShadowedPermittedDomain()
    ensures var ds := [Domain("a", "A", None, Some(false), None, None), Domain("b", "B", None, Some(false), None, None),
                       Domain("b", "B2", None, Some(true), None, None)];
      FallbackDomainId(ds) == Some("a")
  {
    var ds := [Domain("a", "A", None, Some(false), None, None), Domain("b", "B", None, Some(false), None, None),
               Domain("b", "B2", None, Some(true), None, None)];
    assert ds[..2][..1] == [ds[0]];
    assert ds[..2] == [ds[0], ds[1]];
    assert UniqueById([ds[0]]) == [ds[0]];
    assert DomainIds([ds[0]]) == ["a"];
    assert UniqueById(ds[..2]) == [ds[0], ds[1]];
    assert DomainIds([ds[0], ds[1]]) == ["a", "b"];
    assert UniqueById(ds) == [ds[0], ds[1]];
    assert Filter([ds[0], ds[1]], IsPermitted()) == [];
  }

  /**
   * The active-domain effect: nothing happens without domains; a non-empty current id is kept;
   * otherwise the fallback is chosen.
   */
  function NextActiveDomain(current: Option<string>, ds: seq<Domain>): Option<string> {
    if |UniqueById(ds)| == 0 then current
    else if current.Some? && current.value != "" then current
    else FallbackDomainId(ds)
  }

  /**
   * Without domains the selection is left as it is; with domains some domain is always selected
   * afterwards: a non-empty current id is kept, otherwise it is the id of one of the domains.
   */
  lemma NextActiveDomainSpec(current: Option<string>, ds: seq<Domain>)
    ensures |ds| == 0 ==> NextActiveDomain(current, ds) == current
    ensures |ds| > 0 ==> NextActiveDomain(current, ds).Some?
    ensures |ds| > 0 && current.Some? && current.value != "" ==> NextActiveDomain(current, ds) == current
    ensures |ds| > 0 && (current.None? || current.value == "") ==>
      NextActiveDomain(current, ds) == FallbackDomainId(ds)
      && exists i | 0 <= i < |ds| :: ds[i].id == NextActiveDomain(current, ds).value
  {
    FallbackDomainIdSpec(ds);
    if |ds| > 0 {
      UniqueByIdIds(ds);
      assert ds[0].id in DomainIds(UniqueById(ds));
    }
  }

  /** The header select's value: the active id (even an empty one), else the fallback, else "". */
  function DomainSelectValue(active: Option<string>, ds: seq<Domain>): (r: string)
    ensures active.Some? ==> r == active.value
    ensures active.None? && |PermittedDomains(ds)| > 0 ==> r == PermittedDomains(ds)[0].id
    ensures active.None? && |PermittedDomains(ds)| == 0 && |ds| > 0 ==> r == UniqueById(ds)[0].id
    ensures active.None? && |ds| == 0 ==> r == ""
  {
    UniqueByIdEmptyIff(ds);
    match active
    case Some(id) => id
    case None => FallbackDomainId(ds).GetOr("")
  }

  // ---- the registry ----

  const InitialTags: seq<Tag> :=
    [Tag("tag-global", "Global"), Tag("tag-us", "US"), Tag("tag-eu", "EU"), Tag("tag-apac", "APAC")]

  /** The metric `handleRegisterMetric` appends for a registration payload. */
  function RegisteredMetric(payload: NewMetricPayload, now: nat, nowIso: string): (r: Metric)
    ensures r.id == MetricId(now) && r.owners == Owners("TBD", "TBD") && r.trend30d == FlatTrend()
    ensures r.businessDefinition == payload.businessDefinition
    ensures r.technicalDefinition == payload.technicalDefinition
    ensures r.status == Draft && r.heat == Some(0.0) && r.topDimensions == []
    ensures |r.categoryPath| > 0 && r.domain == r.categoryPath[0]
    ensures payload.categoryPath != [] ==> r.categoryPath == payload.categoryPath
    ensures payload.categoryPath == [] ==> r.categoryPath == ["Monetization"]
    ensures r.slug == payload.slug && r.businessName == payload.businessName
    ensures |r.queryDefinitions| == 1
    ensures r.boundDimensionSlugs == r.queryDefinitions[0].analysisDimensions == payload.query.analysisDimensions
    ensures r.queryDefinitions[0].id == QueryId(now) && CopiesQuery(r.queryDefinitions[0], payload.query)
    ensures r.larkSheetLink == NonBlankOpt(payload.larkSheetLink)
    ensures r.larkSheetLink.Some? <==> payload.larkSheetLink.Some? && !AllSpace(payload.larkSheetLink.value)
    ensures r.createdAt == r.updatedAt == Some(nowIso)
  {
    var q := payload.query;
    Metric(MetricId(now), payload.businessName, payload.slug,
           if |payload.categoryPath| > 0 then payload.categoryPath else ["Monetization"],
           payload.businessDefinition, payload.technicalDefinition, Draft,
           if |payload.categoryPath| > 0 then payload.categoryPath[0] else "Monetization",
           Owners("TBD", "TBD"),
           [QueryDefinition(QueryId(now), q.kind, q.source, q.originField, q.aggregate, q.businessDate,
                            q.filters, q.analysisDimensions, q.link)],
           FlatTrend(), [], q.analysisDimensions, Some(nowIso), Some(nowIso), Some(0.0),
           NonBlankOpt(payload.larkSheetLink))
  }

  /** Registration does not check slugs: registering an existing slug duplicates it. */
  lemma RegisterMayDuplicateSlug(metrics: seq<Metric>, payload: NewMetricPayload, now: nat, nowIso: string)
    requires SlugTaken(metrics, payload.slug)
    ensures !UniqueSlugs(metrics + [RegisteredMetric(payload, now, nowIso)])
  {
    var i :| 0 <= i < |metrics| && metrics[i].slug == payload.slug;
    var ms := metrics + [RegisteredMetric(payload, now, nowIso)];
    assert ms[i].slug == ms[|metrics|].slug;
  }

  /** The query definition carries every field of the payload's query. */
  predicate CopiesQuery(d: QueryDefinition, q: QueryPayload) {
    && d.kind == q.kind && d.source == q.source && d.originField == q.originField
    && d.aggregate == q.aggregate && d.businessDate == q.businessDate
    && d.filters == q.filters && d.analysisDimensions == q.analysisDimensions && d.link == q.link
  }

  /** The metric `handleUpdateMetric` puts in place of `m`. */
  function UpdatedMetric(m: Metric, payload: NewMetricPayload, now: nat, nowIso: string): (r: Metric)
    ensures r.id == m.id && r.status == m.status && r.owners == m.owners && r.heat == m.heat
    ensures r.trend30d == m.trend30d && r.topDimensions == m.topDimensions && r.createdAt == m.createdAt
    ensures r.updatedAt == Some(nowIso)
    ensures r.slug == payload.slug && r.businessName == payload.businessName && |r.categoryPath| > 0
    ensures payload.categoryPath != [] ==> r.categoryPath == payload.categoryPath
    ensures payload.categoryPath == [] ==> r.categoryPath == ["Monetization"]
    ensures r.businessDefinition == payload.businessDefinition
    ensures r.technicalDefinition == payload.technicalDefinition
    ensures r.larkSheetLink == NonBlankOpt(payload.larkSheetLink)
    ensures r.domain == (if payload.categoryPath != [] then payload.categoryPath[0] else m.domain)
    ensures |r.queryDefinitions| == 1
    ensures r.queryDefinitions[0].id == (if m.queryDefinitions != [] then m.queryDefinitions[0].id else QueryId(now))
    ensures CopiesQuery(r.queryDefinitions[0], payload.query)
    ensures r.boundDimensionSlugs == payload.query.analysisDimensions
  {
    var q := payload.query;
    m.(businessName := payload.businessName,
       slug := payload.slug,
       categoryPath := if |payload.categoryPath| > 0 then payload.categoryPath else ["Monetization"],
       businessDefinition := payload.businessDefinition,
       technicalDefinition := payload.technicalDefinition,
       domain := if |payload.categoryPath| > 0 then payload.categoryPath[0] else m.domain,
       larkSheetLink := NonBlankOpt(payload.larkSheetLink),
       queryDefinitions := [QueryDefinition(
         if |m.queryDefinitions| > 0 then m.queryDefinitions[0].id else QueryId(now),
         q.kind, q.source, q.originField, q.aggregate, q.businessDate, q.filters, q.analysisDimensions, q.link)],
       boundDimensionSlugs := q.analysisDimensions,
       updatedAt := Some(nowIso))
  }

  function SlugIsNot(slug: string): string -> bool {
    (s: string) => s != slug
  }

  function MetricSlugIsNot(slug: string): Metric -> bool {
    (m: Metric) => m.slug != slug
  }

  /** The metrics that survive deleting `slug`, in order. */
  function WithoutMetric(metrics: seq<Metric>, slug: string): (r: seq<Metric>)
    ensures forall m :: m in r <==> m in metrics && m.slug != slug
    ensures !SlugTaken(r, slug)
  {
    Filter(metrics, MetricSlugIsNot(slug))
  }

  /** Every dimension with `slug` erased from its bound metrics and nothing else changed. */
  function UnbindMetric(dimensions: seq<Dimension>, slug: string): (r: seq<Dimension>)
    ensures |r| == |dimensions|
    ensures forall i | 0 <= i < |r| ::
      r[i] == dimensions[i].(boundMetricSlugs := r[i].boundMetricSlugs)
      && forall s :: s in r[i].boundMetricSlugs <==> s in dimensions[i].boundMetricSlugs && s != slug
  {
    seq(|dimensions|, i requires 0 <= i < |dimensions| =>
      dimensions[i].(boundMetricSlugs := Filter(dimensions[i].boundMetricSlugs, SlugIsNot(slug))))
  }

  /** Every metric set with `slug` erased from its members and nothing else changed. */
  function UnlistMetric(sets: seq<Album>, slug: string): (r: seq<Album>)
    ensures |r| == |sets|
    ensures forall i | 0 <= i < |r| ::
      r[i] == sets[i].(metricSlugs := r[i].metricSlugs)
      && forall s :: s in r[i].metricSlugs <==> s in sets[i].metricSlugs && s != slug
  {
    seq(|sets|, i requires 0 <= i < |sets| =>
      sets[i].(metricSlugs := Filter(sets[i].metricSlugs, SlugIsNot(slug))))
  }

  /** The fields of the dimension create and edit forms. */
  datatype DimensionPayload = DimensionPayload(id: string, name: string, description: string,
                                               category: string, sourceLink: string)

  /** The dimension `handleCreateDimension` appends. */
  function NewDimension(payload: DimensionPayload, nowIso: string): (r: Dimension)
    ensures r.id == r.slug == payload.id
    ensures r.boundMetricSlugs == [] && r.scope == [] && r.domain == "General"
    ensures r.createdAt == r.updatedAt == Some(nowIso)
  {
    Dimension(payload.id, payload.name, payload.id, [], payload.description, "General", "v1", [], "enum", [],
              [], Some(payload.category), Some(payload.sourceLink), Some(nowIso), Some(nowIso))
  }

  /** The dimension `handleUpdateDimension` puts in place of `d`: identity, scope and bindings are kept. */
  function EditedDimension(d: Dimension, payload: DimensionPayload, nowIso: string): (r: Dimension)
    ensures r.id == d.id && r.slug == d.slug && r.domain == d.domain && r.scope == d.scope
    ensures r.boundMetricSlugs == d.boundMetricSlugs && r.createdAt == d.createdAt
    ensures r.name == payload.name && r.updatedAt == Some(nowIso)
  {
    d.(name := payload.name, description := payload.description, category := Some(payload.category),
       sourceLink := Some(payload.sourceLink), updatedAt := Some(nowIso))
  }

  function DimensionIdIsNot(id: string): Dimension -> bool {
    (d: Dimension) => d.id != id
  }

  /** The payload of the new-domain form. */
  datatype DomainPayload = DomainPayload(id: string, name: string, description: string,
                                         sourceType: string, sourceLink: string)

  /** The payload of the new-category form. */
  datatype CategoryPayload = CategoryPayload(id: string, name: string, description: string)

  /** The record `useDataSage` loads and App replaces through `setData`. */
  datatype CatalogData = CatalogData(
    metrics: seq<Metric>,
    dimensions: seq<Dimension>,
    categories: seq<CategoryNode>,
    domains: seq<Domain>,
    dimensionTree: seq<DimensionTreeNode>)

  /** The shell's view state: the selected domain, the profile sheet and the derivation sheet. */
  datatype ShellView = ShellView(
    activeDomainId: Option<string>,
    selectedMetricSlug: Option<string>,
    profileOpen: bool,
    derivedSheetOpen: bool,
    derivedBaseSlug: Option<string>)

  /** The domains the header selector lists: the permitted ones, or all of them when none is. */
  function DomainOptions(ds: seq<Domain>): (r: seq<Domain>)
    ensures |PermittedDomains(ds)| > 0 ==> r == PermittedDomains(ds)
    ensures |PermittedDomains(ds)| == 0 ==> r == UniqueById(ds)
    ensures |r| == 0 <==> |ds| == 0
    ensures NoDup(DomainIds(r))
    ensures forall d | d in r :: d in ds
  {
    UniqueByIdIds(ds);
    UniqueByIdMembers(ds);
    UniqueByIdEmptyIff(ds);
    var permitted := PermittedDomains(ds);
    if |permitted| > 0 then
      FilterIdsNoDup(UniqueById(ds), IsPermitted());
      permitted
    else UniqueById(ds)
  }

  /** With no active domain, the header's select shows the first option it offers. */
  lemma DefaultSelectIsFirstOption(ds: seq<Domain>)
    requires |ds| > 0
    ensures |DomainOptions(ds)| > 0
    ensures DomainSelectValue(None, ds) == DomainOptions(ds)[0].id
  {
  }

  /** Filtering domains with distinct ids leaves domains with distinct ids. */
  lemma {:induction false} FilterIdsNoDup(ds: seq<Domain>, p: Domain -> bool)
    requires NoDup(DomainIds(ds))
    ensures NoDup(DomainIds(Filter(ds, p)))
    decreases |ds|
  {
    if |ds| > 0 {
      assert DomainIds(ds[1..]) == DomainIds(ds)[1..];
      FilterIdsNoDup(ds[1..], p);
      var rest := Filter(ds[1..], p);
      if p(ds[0]) {
        var r := [ds[0]] + rest;
        assert DomainIds(r) == [ds[0].id] + DomainIds(rest);
        forall j | 0 <= j < |rest| ensures rest[j].id != ds[0].id {
          assert rest[j] in ds[1..];
          var k :| 0 <= k < |ds[1..]| && ds[1..][k] == rest[j];
          assert ds[k + 1] == rest[j];
          assert DomainIds(ds)[k + 1] == rest[j].id && DomainIds(ds)[0] == ds[0].id;
        }
      } else {
        assert Filter(ds, p) == rest;
      }
    }
  }

  /** App's state: the loaded data, the metric sets, the tags and the shell's view state. */
  class Registry {
    var data: CatalogData
    var metricSets: seq<Album>
    var tags: seq<Tag>
    var view: ShellView

    constructor(loaded: CatalogData, sets: seq<Album>)
      ensures data == loaded && metricSets == sets && tags == InitialTags
      ensures view == ShellView(None, None, false, false, None)
    {
      data := loaded;
      metricSets := sets;
      tags := InitialTags;
      view := ShellView(None, None, false, false, None);
    }

    /** `handleRegisterMetric`: appends the registered metric, without checking its slug. */
    method RegisterMetric(payload: NewMetricPayload, now: nat, nowIso: string)
      modifies this
      ensures data == old(data).(metrics := old(data.metrics) + [RegisteredMetric(payload, now, nowIso)])
      ensures metricSets == old(metricSets) && tags == old(tags) && view == old(view)
    {
      var trend := CreateFlatTrend();
      var m := RegisteredMetric(payload, now, nowIso).(trend30d := trend);
      data := data.(metrics := data.metrics + [m]);
    }

    /** `handleUpdateMetric`: rewrites every metric with slug `slug`, leaving the others in place. */
    method UpdateMetric(slug: string, payload: NewMetricPayload, now: nat, nowIso: string)
      modifies this
      ensures data == old(data).(metrics := data.metrics)
      ensures |data.metrics| == |old(data.metrics)|
      ensures forall i | 0 <= i < |data.metrics| ::
        data.metrics[i] == (if old(data.metrics)[i].slug == slug then UpdatedMetric(old(data.metrics)[i], payload, now, nowIso)
                            else old(data.metrics)[i])
      ensures metricSets == old(metricSets) && tags == old(tags) && view == old(view)
    {
      var ms := data.metrics;
      data := data.(metrics := seq(|ms|, i requires 0 <= i < |ms| =>
        if ms[i].slug == slug then UpdatedMetric(ms[i], payload, now, nowIso) else ms[i]));
    }

    /**
     * `handleDeleteMetric`: drops every metric with slug `slug` and erases the slug from every
     * dimension's bound metrics and every metric set.
     */
    method DeleteMetric(slug: string)
      modifies this
      ensures data == old(data).(metrics := WithoutMetric(old(data.metrics), slug),
                                 dimensions := UnbindMetric(old(data.dimensions), slug))
      ensures metricSets == UnlistMetric(old(metricSets), slug)
      ensures tags == old(tags) && view == old(view)
    {
      data := data.(metrics := WithoutMetric(data.metrics, slug),
                    dimensions := UnbindMetric(data.dimensions, slug));
      metricSets := UnlistMetric(metricSets, slug);
    }

    /** `handleCreateDimension`. */
    method CreateDimension(payload: DimensionPayload, nowIso: string)
      modifies this
      ensures data == old(data).(dimensions := old(data.dimensions) + [NewDimension(payload, nowIso)])
      ensures metricSets == old(metricSets) && tags == old(tags) && view == old(view)
    {
      data := data.(dimensions := data.dimensions + [NewDimension(payload, nowIso)]);
    }

    /** `handleUpdateDimension`: edits every dimension with the payload's id. */
    method UpdateDimension(payload: DimensionPayload, nowIso: string)
      modifies this
      ensures data == old(data).(dimensions := data.dimensions)
      ensures |data.dimensions| == |old(data.dimensions)|
      ensures forall i | 0 <= i < |data.dimensions| ::
        data.dimensions[i] == (if old(data.dimensions)[i].id == payload.id
                               then EditedDimension(old(data.dimensions)[i], payload, nowIso)
                               else old(data.dimensions)[i])
      ensures metricSets == old(metricSets) && tags == old(tags) && view == old(view)
    {
      var ds := data.dimensions;
      data := data.(dimensions := seq(|ds|, i requires 0 <= i < |ds| =>
        if ds[i].id == payload.id then EditedDimension(ds[i], payload, nowIso) else ds[i]));
    }

    /** `handleDeleteDimension`: drops every dimension with id `id`; metrics keep their bindings. */
    method DeleteDimension(id: string)
      modifies this
      ensures data == old(data).(dimensions := Filter(old(data.dimensions), DimensionIdIsNot(id)))
      ensures forall d :: d in data.dimensions <==> d in old(data.dimensions) && d.id != id
      ensures metricSets == old(metricSets) && tags == old(tags) && view == old(view)
    {
      data := data.(dimensions := Filter(data.dimensions, DimensionIdIsNot(id)));
    }

    /** `handleCreateDomain`: appends a permitted domain. */
    method CreateDomain(payload: DomainPayload)
      modifies this
      ensures data == old(data).(domains := old(data.domains) + [Domain(payload.id, payload.name,
        Some(payload.description), Some(true), Some(payload.sourceType), Some(payload.sourceLink))])
      ensures metricSets == old(metricSets) && tags == old(tags) && view == old(view)
    {
      data := data.(domains := data.domains + [Domain(payload.id, payload.name, Some(payload.description),
                                                      Some(true), Some(payload.sourceType), Some(payload.sourceLink))]);
    }

    /** `handleCreateCategory`: appends a root category with only an id and a name; the description is dropped. */
    method CreateCategory(payload: CategoryPayload)
      modifies this
      ensures data == old(data).(categories := old(data.categories) +
        [CategoryNode(payload.id, payload.name, None, NoCategoryChildren, None)])
      ensures metricSets == old(metricSets) && tags == old(tags) && view == old(view)
    {
      data := data.(categories := data.categories + [CategoryNode(payload.id, payload.name, None, NoCategoryChildren, None)]);
    }

    /** The header's active-domain effect. */
    method SyncActiveDomain()
      modifies this
      ensures view == old(view).(activeDomainId := NextActiveDomain(old(view.activeDomainId), data.domains))
      ensures data == old(data) && metricSets == old(metricSets) && tags == old(tags)
    {
      view := view.(activeDomainId := NextActiveDomain(view.activeDomainId, data.domains));
    }

    /** Picking a domain in the header selector. */
    method SelectDomain(id: string)
      modifies this
      ensures view == old(view).(activeDomainId := Some(id))
      ensures data == old(data) && metricSets == old(metricSets) && tags == old(tags)
    {
      view := view.(activeDomainId := Some(id));
    }

    /** `handleOpenMetricProfile`. */
    method OpenMetricProfile(slug: string)
      modifies this
      ensures view == old(view).(selectedMetricSlug := Some(slug), profileOpen := true)
      ensures data == old(data) && metricSets == old(metricSets) && tags == old(tags)
    {
      view := view.(selectedMetricSlug := Some(slug), profileOpen := true);
    }

    /** `handleOpenDerivedMetricSheet`. */
    method OpenDerivedSheet(base: Metric)
      modifies this
      ensures view == old(view).(derivedBaseSlug := Some(base.slug), derivedSheetOpen := true)
      ensures data == old(data) && metricSets == old(metricSets) && tags == old(tags)
    {
      view := view.(derivedBaseSlug := Some(base.slug), derivedSheetOpen := true);
    }

    /** The derivation sheet's `onOpenChange`: closing it also forgets the base metric. */
    method SetDerivedSheetOpen(open: bool)
      modifies this
      ensures view == old(view).(derivedSheetOpen := open,
                                 derivedBaseSlug := if open then old(view.derivedBaseSlug) else None)
      ensures data == old(data) && metricSets == old(metricSets) && tags == old(tags)
    {
      view := view.(derivedSheetOpen := open);
      if !open {
        view := view.(derivedBaseSlug := None);
      }
    }

    /**
     * `handleCreateDerivedMetric`: appends the derived metric and closes both sheets, or leaves
     * everything unchanged.
     */
    method CreateDerivedMetric(spec: DerivedSpec, now: nat, nowIso: string)
      modifies this
      ensures match DeriveMetric(old(data.metrics), old(view.derivedBaseSlug), spec, now, nowIso)
        case None => data == old(data) && view == old(view)
        case Some(m) =>
          && data == old(data).(metrics := old(data.metrics) + [m])
          && view == old(view).(derivedSheetOpen := false, profileOpen := false, derivedBaseSlug := None)
      ensures metricSets == old(metricSets) && tags == old(tags)
    {
      var r := DeriveMetric(data.metrics, view.derivedBaseSlug, spec, now, nowIso);
      if r.Some? {
        data := data.(metrics := data.metrics + [r.value]);
        view := view.(derivedSheetOpen := false, profileOpen := false, derivedBaseSlug := None);
      }
    }
  }
}
