/**
 * The dimension workspace: one card per root of the dimension tree with its field count, badge and
 * description, and the detail view of the dimensions below the chosen node.
 */
module DimensionsWorkspace {
  import opened Wrappers
  import opened Strings
  import opened Seqs
  import opened Types
  import opened MetricsWorkspace

  // ---- keyword rules ----

  /** Some keyword of the list occurs in `lower`. */
  predicate AnyKeyword(lower: string, keywords: seq<string>)
    decreases |keywords|
  {
    |keywords| > 0 && (Contains(lower, keywords[0]) || AnyKeyword(lower, keywords[1..]))
  }

  lemma {:induction false} AnyKeywordSpec(lower: string, keywords: seq<string>)
    ensures AnyKeyword(lower, keywords) <==> exists j | 0 <= j < |keywords| :: Contains(lower, keywords[j])
    decreases |keywords|
  {
    if |keywords| > 0 {
      AnyKeywordSpec(lower, keywords[1..]);
      if exists j | 0 <= j < |keywords[1..]| :: Contains(lower, keywords[1..][j]) {
        var j :| 0 <= j < |keywords[1..]| && Contains(lower, keywords[1..][j]);
        assert keywords[1..][j] == keywords[j + 1];
      }
      if exists j | 0 <= j < |keywords| :: Contains(lower, keywords[j]) {
        var j :| 0 <= j < |keywords| && Contains(lower, keywords[j]);
        if j > 0 {
          assert keywords[1..][j - 1] == keywords[j];
        }
      }
    }
  }

  /** The outcome of the first rule with a keyword in `lower`, else `otherwise`. */
  function FirstRule<T>(lower: string, rules: seq<(seq<string>, T)>, otherwise: T): T
    decreases |rules|
  {
    if |rules| == 0 then otherwise
    else if AnyKeyword(lower, rules[0].0) then rules[0].1
    else FirstRule(lower, rules[1..], otherwise)
  }

  /** `FirstRule` picks the rule at the first index whose keywords match, and the default when none do. */
  lemma {:induction false} FirstRuleSpec<T>(lower: string, rules: seq<(seq<string>, T)>, otherwise: T)
    ensures (forall k | 0 <= k < |rules| :: !AnyKeyword(lower, rules[k].0)) ==> FirstRule(lower, rules, otherwise) == otherwise
    ensures forall k | 0 <= k < |rules| && AnyKeyword(lower, rules[k].0) ::
      (forall j | 0 <= j < k :: !AnyKeyword(lower, rules[j].0)) ==> FirstRule(lower, rules, otherwise) == rules[k].1
    decreases |rules|
  {
    if |rules| > 0 {
      FirstRuleSpec(lower, rules[1..], otherwise);
      assert forall k | 1 <= k < |rules| :: rules[k] == rules[1..][k - 1];
      forall k | 0 <= k < |rules| && AnyKeyword(lower, rules[k].0)
        ensures (forall j | 0 <= j < k :: !AnyKeyword(lower, rules[j].0)) ==> FirstRule(lower, rules, otherwise) == rules[k].1
      {
        if k > 0 && forall j | 0 <= j < k :: !AnyKeyword(lower, rules[j].0) {
          assert !AnyKeyword(lower, rules[0].0);
          forall j | 0 <= j < k - 1 ensures !AnyKeyword(lower, rules[1..][j].0) {
            assert rules[1..][j] == rules[j + 1];
          }
        }
      }
    }
  }

  lemma FirstRuleCons<T>(lower: string, keyword: string, outcome: T, rest: seq<(seq<string>, T)>, otherwise: T)
    ensures FirstRule(lower, [([keyword], outcome)] + rest, otherwise)
      == if Contains(lower, keyword) then outcome else FirstRule(lower, rest, otherwise)
  {
    var rules := [([keyword], outcome)] + rest;
    assert rules[0].0 == [keyword] && rules[1..] == rest;
    SingleKeyword(lower, keyword);
  }

  // ---- badge ----

  datatype Badge = Core | Financial | System | Reporting | Business

  /** The badge rules in the order they are tried on the lower-cased name; the default is Business. */
  const BadgeRules: seq<(seq<string>, Badge)> := [
    (["user", "core"], Core),
    (["finance", "pay"], Financial),
    (["meta", "system"], System),
    (["analytic"], Reporting)
  ]

  function BadgeOf(name: string): Badge {
    FirstRule(ToLower(name), BadgeRules, Business)
  }

  function BadgeColor(b: Badge): string {
    match b
    case Core => "bg-blue-100 text-blue-700"
    case Financial => "bg-emerald-100 text-emerald-700"
    case System => "bg-zinc-100 text-zinc-700"
    case Reporting => "bg-orange-100 text-orange-700"
    case Business => "bg-purple-100 text-purple-700"
  }

  /** The badge of a category card: start at Business and overwrite with the first rule that applies. */
  method ChooseBadge(name: string) returns (badge: Badge, color: string)
    ensures badge == BadgeOf(name)
    ensures color == BadgeColor(badge)
  {
    badge := Business;
    color := "bg-purple-100 text-purple-700";
    var lower := ToLower(name);
    if Contains(lower, "user") || Contains(lower, "core") {
      badge := Core;
      color := "bg-blue-100 text-blue-700";
    } else if Contains(lower, "finance") || Contains(lower, "pay") {
      badge := Financial;
      color := "bg-emerald-100 text-emerald-700";
    } else if Contains(lower, "meta") || Contains(lower, "system") {
      badge := System;
      color := "bg-zinc-100 text-zinc-700";
    } else if Contains(lower, "analytic") {
      badge := Reporting;
      color := "bg-orange-100 text-orange-700";
    }
    BadgeRulesUnfold(lower);
    assert badge == BadgeChain(lower);
  }

  lemma BadgeRulesUnfold(lower: string)
    ensures BadgeChain(lower) == FirstRule(lower, BadgeRules, Business)
  {
    PairKeyword(lower, "user", "core");
    PairKeyword(lower, "finance", "pay");
    PairKeyword(lower, "meta", "system");
    SingleKeyword(lower, "analytic");
    var rules := BadgeRules;
    assert rules[1..] == [(["finance", "pay"], Financial), (["meta", "system"], System), (["analytic"], Reporting)];
    assert rules[1..][1..] == [(["meta", "system"], System), (["analytic"], Reporting)];
    assert rules[1..][1..][1..] == [(["analytic"], Reporting)];
    assert rules[1..][1..][1..][1..] == [];
  }

  /** The if-chain of `ChooseBadge` on an already lower-cased name. */
  function BadgeChain(lower: string): Badge {
    if Contains(lower, "user") || Contains(lower, "core") then Core
    else if Contains(lower, "finance") || Contains(lower, "pay") then Financial
    else if Contains(lower, "meta") || Contains(lower, "system") then System
    else if Contains(lower, "analytic") then Reporting
    else Business
  }

  lemma PairKeyword(lower: string, a: string, b: string)
    ensures AnyKeyword(lower, [a, b]) <==> Contains(lower, a) || Contains(lower, b)
  {
    assert [a, b][1..] == [b];
    SingleKeyword(lower, b);
  }

  lemma SingleKeyword(lower: string, a: string)
    ensures AnyKeyword(lower, [a]) <==> Contains(lower, a)
  {
    assert [a][1..] == [];
    assert !AnyKeyword(lower, []);
  }

  // ---- description ----

  const GenericDescription: string := "General data fields and dimensions for this category."

  /** The description keywords in the order they are tried on the lower-cased name. */
  const DescriptionRules: seq<(seq<string>, string)> := [
    (["user"], "Fields related to user information, profiles, and account settings."),
    (["product"], "Product catalog, inventory status, and SKU details."),
    (["order"], "Order processing, shipping tracking, and fulfillment data."),
    (["pay"], "Payment methods, transaction history, and billing records."),
    (["analytic"], "Key performance indicators, usage metrics, and analytics tracking."),
    (["meta"], "System-level metadata, timestamps, and version control info.")
  ]

  /** `getDescriptionForCategory`: a chain of early returns on the lower-cased name. */
  function DescriptionFor(name: string): string {
    var lower := ToLower(name);
    if Contains(lower, "user") then "Fields related to user information, profiles, and account settings."
    else if Contains(lower, "product") then "Product catalog, inventory status, and SKU details."
    else if Contains(lower, "order") then "Order processing, shipping tracking, and fulfillment data."
    else if Contains(lower, "pay") then "Payment methods, transaction history, and billing records."
    else if Contains(lower, "analytic") then "Key performance indicators, usage metrics, and analytics tracking."
    else if Contains(lower, "meta") then "System-level metadata, timestamps, and version control info."
    else GenericDescription
  }

  /** The description is the text of the first keyword matched, in the rule order, else the generic text. */
  lemma DescriptionIsFirstRule(name: string)
    ensures DescriptionFor(name) == FirstRule(ToLower(name), DescriptionRules, GenericDescription)
  {
    var lower := ToLower(name);
    var r := DescriptionRules;
    FirstRuleCons(lower, "user", r[0].1, r[1..], GenericDescription);
    FirstRuleCons(lower, "product", r[1].1, r[2..], GenericDescription);
    FirstRuleCons(lower, "order", r[2].1, r[3..], GenericDescription);
    FirstRuleCons(lower, "pay", r[3].1, r[4..], GenericDescription);
    FirstRuleCons(lower, "analytic", r[4].1, r[5..], GenericDescription);
    FirstRuleCons(lower, "meta", r[5].1, r[6..], GenericDescription);
    assert r == [r[0]] + r[1..] && r[1..] == [r[1]] + r[2..] && r[2..] == [r[2]] + r[3..];
    assert r[3..] == [r[3]] + r[4..] && r[4..] == [r[4]] + r[5..] && r[5..] == [r[5]] + r[6..];
    assert r[6..] == [];
  }

  // ---- field counting ----

  /** `countFields`: the node's own slugs plus, when it has a child list, the children's counts. */
  method CountFields(n: DimensionTreeNode) returns (count: nat)
    ensures count == |SubtreeSlugs(n)|
    decreases n
  {
    count := |OwnSlugs(n)|;
    match n.children {
      case NoDimensionChildren =>
      case DimensionChildren(cs) =>
        var acc := 0;
        var i := 0;
        while i < |cs|
          invariant 0 <= i <= |cs|
          invariant acc + |ForestSlugs(cs[i..])| == |ForestSlugs(cs)|
        {
          assert cs[i..][0] == cs[i] && cs[i..][1..] == cs[i + 1..];
          var c := CountFields(cs[i]);
          acc := acc + c;
          i := i + 1;
        }
        count := count + acc;
    }
  }

  // ---- category cards ----

  datatype CategoryCard = CategoryCard(node: DimensionTreeNode, totalFields: nat, badge: Badge, badgeColor: string, description: string)

  /** The card of one root: its subtree field count, its badge with the badge's color, and its description. */
  function CardOf(n: DimensionTreeNode): CategoryCard {
    CategoryCard(n, |SubtreeSlugs(n)|, BadgeOf(n.name), BadgeColor(BadgeOf(n.name)), DescriptionFor(n.name))
  }

  /** The cards of the roots, in order. */
  function CardsOf(tree: seq<DimensionTreeNode>): seq<CategoryCard>
    decreases |tree|
  {
    if |tree| == 0 then [] else CardsOf(tree[..|tree| - 1]) + [CardOf(tree[|tree| - 1])]
  }

  /** One card per root, in order, with its subtree field count, badge and color, and description. */
  lemma {:induction false} CardsOfSpec(tree: seq<DimensionTreeNode>)
    ensures |CardsOf(tree)| == |tree|
    ensures forall i | 0 <= i < |tree| ::
      && CardsOf(tree)[i].node == tree[i]
      && CardsOf(tree)[i].totalFields == |SubtreeSlugs(tree[i])|
      && CardsOf(tree)[i].badge == BadgeOf(tree[i].name)
      && CardsOf(tree)[i].badgeColor == BadgeColor(CardsOf(tree)[i].badge)
      && CardsOf(tree)[i].description == DescriptionFor(tree[i].name)
    decreases |tree|
  {
    if |tree| > 0 {
      var init := tree[..|tree| - 1];
      CardsOfSpec(init);
      forall i | 0 <= i < |tree| ensures CardsOf(tree)[i] == CardOf(tree[i]) {
        if i < |tree| - 1 {
          assert init[i] == tree[i];
        }
      }
    }
  }

  /** `categories`: one card per root, in order. */
  method Categories(tree: seq<DimensionTreeNode>) returns (cards: seq<CategoryCard>)
    ensures cards == CardsOf(tree)
  {
    cards := [];
    var i := 0;
    while i < |tree|
      invariant 0 <= i <= |tree|
      invariant cards == CardsOf(tree[..i])
    {
      assert tree[..i + 1][..i] == tree[..i];
      var card := MakeCard(tree[i]);
      cards := cards + [card];
      i := i + 1;
    }
    assert tree[..i] == tree;
  }

  /** The body of the `map` callback of `categories`. */
  method MakeCard(n: DimensionTreeNode) returns (card: CategoryCard)
    ensures card == CardOf(n)
  {
    var total := CountFields(n);
    var badge, color := ChooseBadge(n.name);
    card := CategoryCard(n, total, badge, color, DescriptionFor(n.name));
  }

  // ---- the active node ----

  function DimPreorder(ns: seq<DimensionTreeNode>): seq<DimensionTreeNode>
    decreases ns
  {
    if |ns| == 0 then [] else DimSubtreePreorder(ns[0]) + DimPreorder(ns[1..])
  }

  function DimSubtreePreorder(n: DimensionTreeNode): seq<DimensionTreeNode>
    decreases n
  {
    [n] + match n.children
      case NoDimensionChildren => []
      case DimensionChildren(cs) => DimPreorder(cs)
  }

  function HasDimensionNodeId(id: string): DimensionTreeNode -> bool {
    (n: DimensionTreeNode) => n.id == id
  }

  /** `findNode`: each node is compared before its children are searched. */
  function FindNode(ns: seq<DimensionTreeNode>, id: string): Option<DimensionTreeNode>
    decreases ns
  {
    if |ns| == 0 then None
    else if ns[0].id == id then Some(ns[0])
    else
      var below := match ns[0].children
        case NoDimensionChildren => None
        case DimensionChildren(cs) => FindNode(cs, id);
      if below.Some? then below else FindNode(ns[1..], id)
  }

  /** `findNode` returns the first node in preorder with the id, or nothing. */
  lemma {:induction false} FindNodeIsPreorderFind(ns: seq<DimensionTreeNode>, id: string)
    ensures FindNode(ns, id) == Find(DimPreorder(ns), HasDimensionNodeId(id))
    decreases ns
  {
    if |ns| > 0 {
      var n := ns[0];
      var below := match n.children
        case NoDimensionChildren => []
        case DimensionChildren(cs) => DimPreorder(cs);
      assert DimSubtreePreorder(n) == [n] + below;
      FindConcat(DimSubtreePreorder(n), DimPreorder(ns[1..]), HasDimensionNodeId(id));
      FindConcat([n], below, HasDimensionNodeId(id));
      match n.children {
        case NoDimensionChildren =>
        case DimensionChildren(cs) =>
          FindNodeIsPreorderFind(cs, id);
      }
      FindNodeIsPreorderFind(ns[1..], id);
    }
  }

  /** `activeNode`: nothing without an active id (the empty id counts as none), else `findNode`. */
  function ActiveNode(tree: seq<DimensionTreeNode>, activeId: Option<string>): (r: Option<DimensionTreeNode>)
    ensures r.Some? ==> activeId.Some? && r.value.id == activeId.value && r.value in DimPreorder(tree)
    ensures activeId.Some? && activeId.value != "" ==> (r.None? <==> forall n | n in DimPreorder(tree) :: n.id != activeId.value)
  {
    match activeId
    case None => None
    case Some(id) =>
      if id == "" then None
      else
        FindNodeIsPreorderFind(tree, id);
        FindNode(tree, id)
  }

  /** `collectSlugs`: every slug of the node and, recursively, of its children, added to a set. */
  method CollectSlugs(n: DimensionTreeNode, slugs: set<string>) returns (r: set<string>)
    ensures r == slugs + Elems(SubtreeSlugs(n))
    decreases n
  {
    r := slugs + Elems(OwnSlugs(n));
    ElemsAppend(OwnSlugs(n), []);
    match n.children {
      case NoDimensionChildren =>
        assert SubtreeSlugs(n) == OwnSlugs(n) + [];
      case DimensionChildren(cs) =>
        var i := 0;
        while i < |cs|
          invariant 0 <= i <= |cs|
          invariant r + Elems(ForestSlugs(cs[i..])) == slugs + Elems(SubtreeSlugs(n))
        {
          assert cs[i..][0] == cs[i] && cs[i..][1..] == cs[i + 1..];
          ElemsAppend(SubtreeSlugs(cs[i]), ForestSlugs(cs[i + 1..]));
          r := CollectSlugs(cs[i], r);
          i := i + 1;
        }
        ElemsAppend(OwnSlugs(n), ForestSlugs(cs));
        assert cs[|cs|..] == [];
    }
  }

  lemma ElemsAppend(a: seq<string>, b: seq<string>)
    ensures Elems(a + b) == Elems(a) + Elems(b)
  {
  }

  function DimensionSlugInFn(slugs: set<string>): Dimension -> bool {
    (d: Dimension) => d.slug in slugs
  }

  /**
   * `activeDimensions`: the dimensions, in their order, whose slug occurs anywhere in the active
   * node's subtree; none when no node is active.
   */
  method ActiveDimensions(tree: seq<DimensionTreeNode>, dimensions: seq<Dimension>, activeId: Option<string>)
    returns (r: seq<Dimension>)
    ensures ActiveNode(tree, activeId).None? ==> r == []
    ensures ActiveNode(tree, activeId).Some? ==>
      r == Filter(dimensions, DimensionSlugInFn(Elems(SubtreeSlugs(ActiveNode(tree, activeId).value))))
    ensures forall d :: d in r <==> (ActiveNode(tree, activeId).Some? && d in dimensions
      && d.slug in SubtreeSlugs(ActiveNode(tree, activeId).value))
  {
    var node := ActiveNode(tree, activeId);
    if node.None? {
      return [];
    }
    var slugs := CollectSlugs(node.value, {});
    assert slugs == Elems(SubtreeSlugs(node.value));
    r := Filter(dimensions, DimensionSlugInFn(slugs));
  }
}
