/**
 * The catalogue's records: metrics with their query definitions, dimensions, metric sets
 * ("albums"), tags, domains, the category and dimension trees, the registration payload and
 * the two kinds of derived-metric specification.
 */
module Types {
  import opened Wrappers

  datatype Status = Active | Draft

  datatype Owners = Owners(businessOwner: string, techOwner: string)

  /** A metric's query definition; `kind` is the source's `type` field. */
  datatype QueryDefinition = QueryDefinition(
    id: string,
    kind: string,
    source: string,
    originField: string,
    aggregate: string,
    businessDate: string,
    filters: seq<string>,
    analysisDimensions: seq<string>,
    link: Option<string>)

  datatype TrendPoint = TrendPoint(date: string, value: real)

  datatype TopDimensionPoint = TopDimensionPoint(labelText: string, value: real)

  datatype Metric = Metric(
    id: string,
    businessName: string,
    slug: string,
    categoryPath: seq<string>,
    businessDefinition: string,
    technicalDefinition: string,
    status: Status,
    domain: string,
    owners: Owners,
    queryDefinitions: seq<QueryDefinition>,
    trend30d: seq<TrendPoint>,
    topDimensions: seq<TopDimensionPoint>,
    boundDimensionSlugs: seq<string>,
    createdAt: Option<string>,
    updatedAt: Option<string>,
    heat: Option<real>,
    larkSheetLink: Option<string>)

  datatype DimensionValue = DimensionValue(code: string, labelText: string)

  /** A dimension; `kind` is the source's `type` field. */
  datatype Dimension = Dimension(
    id: string,
    name: string,
    slug: string,
    aliases: seq<string>,
    description: string,
    domain: string,
    version: string,
    scope: seq<string>,
    kind: string,
    values: seq<DimensionValue>,
    boundMetricSlugs: seq<string>,
    category: Option<string>,
    sourceLink: Option<string>,
    createdAt: Option<string>,
    updatedAt: Option<string>)

  datatype Tag = Tag(id: string, name: string)

  datatype Visibility = Team | Private

  /** A metric set; `tags` holds tag ids. */
  datatype Album = Album(
    id: string,
    name: string,
    description: string,
    scope: string,
    visibility: Visibility,
    domain: string,
    metricSlugs: seq<string>,
    tags: seq<string>,
    createdAt: Option<string>,
    updatedAt: Option<string>)

  /** The optional `children` list of a category node. */
  datatype CategoryChildren = NoCategoryChildren | CategoryChildren(nodes: seq<CategoryNode>)

  datatype CategoryNode = CategoryNode(
    id: string,
    name: string,
    description: Option<string>,
    children: CategoryChildren,
    metricSlugs: Option<seq<string>>)

  datatype Domain = Domain(
    id: string,
    name: string,
    description: Option<string>,
    permitted: Option<bool>,
    sourceType: Option<string>,
    sourceLink: Option<string>)

  /** The optional `children` list of a dimension-tree node. */
  datatype DimensionChildren = NoDimensionChildren | DimensionChildren(nodes: seq<DimensionTreeNode>)

  datatype DimensionTreeNode = DimensionTreeNode(
    id: string,
    name: string,
    count: int,
    children: DimensionChildren,
    dimensionSlugs: Option<seq<string>>)

  /** The `query` part of a registration payload; `kind` is the source's `type` field. */
  datatype QueryPayload = QueryPayload(
    kind: string,
    source: string,
    originField: string,
    aggregate: string,
    businessDate: string,
    filters: seq<string>,
    analysisDimensions: seq<string>,
    link: Option<string>)

  datatype NewMetricPayload = NewMetricPayload(
    businessName: string,
    businessDefinition: string,
    slug: string,
    technicalDefinition: string,
    categoryPath: seq<string>,
    larkSheetLink: Option<string>,
    query: QueryPayload)

  /** One row of a filter-based derivation: a dimension slug and its raw, untokenized values. */
  datatype FilterRow = FilterRow(dimensionSlug: string, values: string)

  datatype Operator = Add | Sub | Mul | Div

  /**
   * A JavaScript number as far as the catalogue uses one: `NaN`, or a value together with the
   * text `String(value)` renders it as.
   */
  datatype JsNumber = NaN | Num(value: real, text: string)

  /** A derived-metric specification, discriminated by its mode. */
  datatype DerivedSpec =
    | FilterSpec(businessName: string, slug: string, description: Option<string>,
                 dimensionFilters: seq<FilterRow>)
    | ArithmeticSpec(businessName: string, slug: string, description: Option<string>,
                     otherMetricSlug: string, operator: Operator, coefficient: Option<JsNumber>)
}
