/**
 * The metric registration form: the category options flattened from the category tree, the
 * prefill from an existing metric, and the registration payload built on submit.
 */
module Registration {
  import opened Wrappers
  import opened Strings
  import opened Seqs
  import opened Types
  import opened Utils
  import opened Management

  /** The separator of a category path in the registration form. */
  const PathSeparator: string := " > "

  // ---- category options ----

  /** A node with a non-empty `children` list; every other node is a leaf. */
  predicate HasChildNodes(n: CategoryNode) {
    n.children.CategoryChildren? && |n.children.nodes| > 0
  }

  /** The root-to-leaf name lists below `prefix`, one per leaf, in depth-first order. */
  function LeafPaths(ns: seq<CategoryNode>, prefix: seq<string>): seq<seq<string>>
    decreases ns
  {
    if |ns| == 0 then [] else NodeLeafPaths(ns[0], prefix) + LeafPaths(ns[1..], prefix)
  }

  function NodeLeafPaths(n: CategoryNode, prefix: seq<string>): seq<seq<string>>
    decreases n
  {
    var current := prefix + [n.name];
    match n.children
    case CategoryChildren(cs) => if |cs| > 0 then LeafPaths(cs, current) else [current]
    case NoCategoryChildren => [current]
  }

  function JoinPaths(paths: seq<seq<string>>): (r: seq<string>)
    ensures |r| == |paths| && forall i | 0 <= i < |paths| :: r[i] == Join(paths[i], PathSeparator)
  {
    seq(|paths|, i requires 0 <= i < |paths| => Join(paths[i], PathSeparator))
  }

  /**
   * `flattenCategoryPaths`: for each node, recurse into a non-empty child list with the longer
   * prefix, or push the joined path of a leaf.
   */
  method FlattenCategoryPaths(ns: seq<CategoryNode>, prefix: seq<string>) returns (paths: seq<string>)
    ensures paths == JoinPaths(LeafPaths(ns, prefix))
    decreases ns
  {
    paths := [];
    var i := 0;
    while i < |ns|
      invariant 0 <= i <= |ns|
      invariant paths + JoinPaths(LeafPaths(ns[i..], prefix)) == JoinPaths(LeafPaths(ns, prefix))
    {
      var node := ns[i];
      var current := prefix + [node.name];
      var piece;
      if HasChildNodes(node) {
        assert NodeLeafPaths(node, prefix) == LeafPaths(node.children.nodes, current);
        piece := FlattenCategoryPaths(node.children.nodes, current);
      } else {
        assert NodeLeafPaths(node, prefix) == [current];
        piece := [Join(current, PathSeparator)];
      }
      assert piece == JoinPaths(NodeLeafPaths(node, prefix));
      JoinPathsStep(ns, i, prefix);
      paths := paths + piece;
      i := i + 1;
    }
  }

  /** The joined paths of `ns[i..]` are those of `ns[i]` followed by those of `ns[i + 1..]`. */
  lemma JoinPathsStep(ns: seq<CategoryNode>, i: nat, prefix: seq<string>)
    requires i < |ns|
    ensures JoinPaths(LeafPaths(ns[i..], prefix)) ==
      JoinPaths(NodeLeafPaths(ns[i], prefix)) + JoinPaths(LeafPaths(ns[i + 1..], prefix))
  {
    assert ns[i..][0] == ns[i] && ns[i..][1..] == ns[i + 1..];
    JoinPathsAppend(NodeLeafPaths(ns[i], prefix), LeafPaths(ns[i + 1..], prefix));
  }

  lemma JoinPathsAppend(a: seq<seq<string>>, b: seq<seq<string>>)
    ensures JoinPaths(a + b) == JoinPaths(a) + JoinPaths(b)
  {
  }

  function Last(p: seq<string>): string {
    if |p| == 0 then "" else p[|p| - 1]
  }

  predicate IsLeaf(n: CategoryNode) {
    !HasChildNodes(n)
  }

  function IsLeafFn(): CategoryNode -> bool {
    (n: CategoryNode) => IsLeaf(n)
  }

  /** The leaves, in preorder. */
  function Leaves(ns: seq<CategoryNode>): (r: seq<CategoryNode>)
    ensures forall i | 0 <= i < |r| :: IsLeaf(r[i])
  {
    Filter(Preorder(ns), IsLeafFn())
  }

  lemma {:induction false} PreorderAppend(a: seq<CategoryNode>, b: seq<CategoryNode>)
    ensures Preorder(a + b) == Preorder(a) + Preorder(b)
    decreases |a|
  {
    if |a| == 0 {
      assert a + b == b;
    } else {
      assert (a + b)[0] == a[0] && (a + b)[1..] == a[1..] + b;
      PreorderAppend(a[1..], b);
    }
  }

  lemma LeavesAppend(a: seq<CategoryNode>, b: seq<CategoryNode>)
    ensures Leaves(a + b) == Leaves(a) + Leaves(b)
  {
    PreorderAppend(a, b);
    FilterAppend(Preorder(a), Preorder(b), IsLeafFn());
  }

  /**
   * One path per leaf, in depth-first order: every path extends the prefix by at least one name,
   * and the last names of the paths are the leaves' names in preorder.
   */
  /** Each path extends `prefix` and ends in the name of the leaf at the same position. */
  predicate EndInLeaves(paths: seq<seq<string>>, prefix: seq<string>, leaves: seq<CategoryNode>) {
    && |paths| == |leaves|
    && forall i | 0 <= i < |paths| ::
      && |paths[i]| > |prefix|
      && paths[i][..|prefix|] == prefix
      && Last(paths[i]) == leaves[i].name
  }

  lemma EndInLeavesAppend(p1: seq<seq<string>>, p2: seq<seq<string>>, prefix: seq<string>,
                          l1: seq<CategoryNode>, l2: seq<CategoryNode>)
    requires EndInLeaves(p1, prefix, l1) && EndInLeaves(p2, prefix, l2)
    ensures EndInLeaves(p1 + p2, prefix, l1 + l2)
  {
    forall i | 0 <= i < |p1 + p2|
      ensures (p1 + p2)[i] == (if i < |p1| then p1[i] else p2[i - |p1|])
      ensures (l1 + l2)[i] == (if i < |p1| then l1[i] else l2[i - |p1|])
    {
    }
  }

  /**
   * One path per leaf, in depth-first order: every path extends the prefix by at least one name,
   * and the last names of the paths are the leaves' names in preorder.
   */
  lemma {:induction false} LeafPathsPerLeaf(ns: seq<CategoryNode>, prefix: seq<string>)
    ensures EndInLeaves(LeafPaths(ns, prefix), prefix, Leaves(ns))
    decreases ns
  {
    if |ns| > 0 {
      NodeLeafPathsPerLeaf(ns[0], prefix);
      LeafPathsPerLeaf(ns[1..], prefix);
      assert ns == [ns[0]] + ns[1..];
      LeavesAppend([ns[0]], ns[1..]);
      EndInLeavesAppend(NodeLeafPaths(ns[0], prefix), LeafPaths(ns[1..], prefix), prefix, Leaves([ns[0]]), Leaves(ns[1..]));
    }
  }

  lemma {:induction false} NodeLeafPathsPerLeaf(n: CategoryNode, prefix: seq<string>)
    ensures EndInLeaves(NodeLeafPaths(n, prefix), prefix, Leaves([n]))
    decreases n
  {
    var current := prefix + [n.name];
    assert [n][1..] == [];
    assert Preorder([n]) == SubtreePreorder(n);
    if HasChildNodes(n) {
      var cs := n.children.nodes;
      LeafPathsPerLeaf(cs, current);
      assert SubtreePreorder(n) == [n] + Preorder(cs);
      FilterAppend([n], Preorder(cs), IsLeafFn());
      assert Filter([n], IsLeafFn()) == [];
      assert Leaves([n]) == Leaves(cs);
      assert NodeLeafPaths(n, prefix) == LeafPaths(cs, current);
      forall i | 0 <= i < |NodeLeafPaths(n, prefix)|
        ensures NodeLeafPaths(n, prefix)[i][..|prefix|] == prefix
      {
        var p := NodeLeafPaths(n, prefix)[i];
        assert p[..|current|] == current;
        assert p[..|prefix|] == p[..|current|][..|prefix|];
      }
    } else {
      var below := match n.children
        case NoCategoryChildren => []
        case CategoryChildren(cs) => Preorder(cs);
      assert below == [];
      assert SubtreePreorder(n) == [n];
      assert Filter([n], IsLeafFn()) == [n];
      assert current[..|prefix|] == prefix;
    }
  }

  /** `q` is the names on a path from `n` down to a leaf. */
  predicate NodePath(n: CategoryNode, q: seq<string>)
    decreases n
  {
    && |q| > 0
    && q[0] == n.name
    && match n.children
       case CategoryChildren(cs) => if |cs| > 0 then ForestPath(cs, q[1..]) else |q| == 1
       case NoCategoryChildren => |q| == 1
  }

  /** `q` is the names on a path from one of the roots `ns` down to a leaf. */
  predicate ForestPath(ns: seq<CategoryNode>, q: seq<string>)
    decreases ns
  {
    exists i | 0 <= i < |ns| :: NodePath(ns[i], q)
  }

  /** Each path is `prefix` followed by the names from a root of `ns` down to a leaf. */
  predicate FollowTree(paths: seq<seq<string>>, prefix: seq<string>, ns: seq<CategoryNode>) {
    forall k | 0 <= k < |paths| ::
      && |paths[k]| > |prefix|
      && paths[k][..|prefix|] == prefix
      && ForestPath(ns, paths[k][|prefix|..])
  }

  /** Every flattened path names the nodes from a root down to a leaf. */
  lemma {:induction false} LeafPathsFollowTree(ns: seq<CategoryNode>, prefix: seq<string>)
    ensures FollowTree(LeafPaths(ns, prefix), prefix, ns)
    decreases ns
  {
    if |ns| > 0 {
      var n := ns[0];
      var first := NodeLeafPaths(n, prefix);
      var rest := LeafPaths(ns[1..], prefix);
      NodeLeafPathsFollowTree(n, prefix);
      LeafPathsFollowTree(ns[1..], prefix);
      assert LeafPaths(ns, prefix) == first + rest;
      forall k | 0 <= k < |first + rest|
        ensures |(first + rest)[k]| > |prefix|
        ensures (first + rest)[k][..|prefix|] == prefix
        ensures ForestPath(ns, (first + rest)[k][|prefix|..])
      {
        if k < |first| {
          assert (first + rest)[k] == first[k];
          assert NodePath(ns[0], first[k][|prefix|..]);
        } else {
          var p := rest[k - |first|];
          assert (first + rest)[k] == p;
          var i :| 0 <= i < |ns[1..]| && NodePath(ns[1..][i], p[|prefix|..]);
          assert NodePath(ns[i + 1], p[|prefix|..]);
        }
      }
    }
  }

  lemma {:induction false} NodeLeafPathsFollowTree(n: CategoryNode, prefix: seq<string>)
    ensures forall k | 0 <= k < |NodeLeafPaths(n, prefix)| ::
      && |NodeLeafPaths(n, prefix)[k]| > |prefix|
      && NodeLeafPaths(n, prefix)[k][..|prefix|] == prefix
      && NodePath(n, NodeLeafPaths(n, prefix)[k][|prefix|..])
    decreases n
  {
    var current := prefix + [n.name];
    if HasChildNodes(n) {
      var cs := n.children.nodes;
      LeafPathsFollowTree(cs, current);
      assert NodeLeafPaths(n, prefix) == LeafPaths(cs, current);
      forall k | 0 <= k < |NodeLeafPaths(n, prefix)|
        ensures |NodeLeafPaths(n, prefix)[k]| > |prefix|
        ensures NodeLeafPaths(n, prefix)[k][..|prefix|] == prefix
        ensures NodePath(n, NodeLeafPaths(n, prefix)[k][|prefix|..])
      {
        var p := NodeLeafPaths(n, prefix)[k];
        assert p[..|current|] == current;
        assert p[..|prefix|] == p[..|current|][..|prefix|];
        var q := p[|prefix|..];
        assert q[0] == p[|prefix|] == current[|prefix|] == n.name;
        assert q[1..] == p[|current|..];
      }
    } else {
      assert NodeLeafPaths(n, prefix) == [current];
      assert current[..|prefix|] == prefix;
      assert current[|prefix|..] == [n.name];
    }
  }

  /** A non-empty name free of `>`. */
  predicate PathName(name: string) {
    name != "" && FreeOf(name, {'>'})
  }

  /** Every name in the forest is a non-empty name free of `>`. */
  predicate NamesFree(ns: seq<CategoryNode>)
    decreases ns
  {
    forall i | 0 <= i < |ns| :: PathName(ns[i].name)
      && match ns[i].children
         case NoCategoryChildren => true
         case CategoryChildren(cs) => NamesFree(cs)
  }

  predicate AllPathNames(paths: seq<seq<string>>) {
    forall i, j | 0 <= i < |paths| && 0 <= j < |paths[i]| :: PathName(paths[i][j])
  }

  /** Paths built from non-empty `>`-free names consist of such names. */
  lemma {:induction false} LeafPathsFree(ns: seq<CategoryNode>, prefix: seq<string>)
    requires NamesFree(ns)
    requires forall j | 0 <= j < |prefix| :: PathName(prefix[j])
    ensures AllPathNames(LeafPaths(ns, prefix))
    decreases ns
  {
    if |ns| > 0 {
      var n := ns[0];
      var current := prefix + [n.name];
      assert NamesFree(ns[1..]) by {
        forall i | 0 <= i < |ns[1..]| ensures PathName(ns[1..][i].name) && match ns[1..][i].children
          case NoCategoryChildren => true
          case CategoryChildren(cs) => NamesFree(cs)
        {
          assert ns[1..][i] == ns[i + 1];
        }
      }
      LeafPathsFree(ns[1..], prefix);
      if HasChildNodes(n) {
        assert NamesFree(n.children.nodes) by {
          assert PathName(ns[0].name) && match ns[0].children
            case NoCategoryChildren => true
            case CategoryChildren(cs) => NamesFree(cs);
        }
        LeafPathsFree(n.children.nodes, current);
        assert NodeLeafPaths(n, prefix) == LeafPaths(n.children.nodes, current);
      } else {
        assert NodeLeafPaths(n, prefix) == [current];
      }
      assert LeafPaths(ns, prefix) == NodeLeafPaths(n, prefix) + LeafPaths(ns[1..], prefix);
    }
  }

  // ---- splitting a path ----

  /** `s.split(sep)` for a non-empty separator, scanning left to right; `cur` is the piece so far. */
  function SplitOnFrom(s: string, sep: string, cur: string): (r: seq<string>)
    requires |sep| > 0
    ensures |r| > 0
    decreases |s|
  {
    if |s| == 0 then [cur]
    else if sep <= s then [cur] + SplitOnFrom(s[|sep|..], sep, "")
    else SplitOnFrom(s[1..], sep, cur + [s[0]])
  }

  function SplitOn(s: string, sep: string): (r: seq<string>)
    requires |sep| > 0
    ensures |r| > 0
  {
    SplitOnFrom(s, sep, "")
  }

  /** `categoryPathStr ? categoryPathStr.split(" > ") : []`. */
  function CategoryPathOf(selected: Option<string>): (r: seq<string>)
    ensures selected.None? || selected.value == "" ==> r == []
  {
    match selected
    case None => []
    case Some(s) => if s == "" then [] else SplitOn(s, PathSeparator)
  }

  /** `categoryPath.length ? categoryPath.join(" > ") : undefined`. */
  function PathPrefill(path: seq<string>): Option<string> {
    if |path| > 0 then Some(Join(path, PathSeparator)) else None
  }

  /** A `>`-free name is copied into the current piece whole, as long as no `>` follows it. */
  lemma {:induction false} SplitSkipsName(n: string, rest: string, cur: string)
    requires FreeOf(n, {'>'})
    requires |rest| == 0 || rest[0] != '>'
    ensures SplitOnFrom(n + rest, PathSeparator, cur) == SplitOnFrom(rest, PathSeparator, cur + n)
    decreases |n|
  {
    if |n| == 0 {
      assert n + rest == rest;
      assert cur + n == cur;
    } else {
      var s := n + rest;
      assert |s| < 3 || s[1] != '>' by {
        if |n| > 1 {
          assert s[1] == n[1];
        } else if |s| >= 3 {
          assert s[1] == rest[0];
        }
      }
      assert PathSeparator[1] == '>';
      assert !(PathSeparator <= s);
      assert s[1..] == n[1..] + rest;
      SplitSkipsName(n[1..], rest, cur + [n[0]]);
      assert cur + [n[0]] + n[1..] == cur + n;
    }
  }

  /** Splitting a join of `>`-free names gives the names back. */
  lemma {:induction false} SplitJoinPath(names: seq<string>)
    requires |names| > 0
    requires forall j | 0 <= j < |names| :: FreeOf(names[j], {'>'})
    ensures SplitOn(Join(names, PathSeparator), PathSeparator) == names
    decreases |names|
  {
    if |names| == 1 {
      SplitSkipsName(names[0], "", "");
      assert names[0] + "" == names[0];
      assert "" + names[0] == names[0];
    } else {
      var rest := Join(names[1..], PathSeparator);
      assert Join(names, PathSeparator) == names[0] + (PathSeparator + rest);
      SplitSkipsName(names[0], PathSeparator + rest, "");
      assert "" + names[0] == names[0];
      assert PathSeparator <= PathSeparator + rest;
      assert (PathSeparator + rest)[|PathSeparator|..] == rest;
      SplitJoinPath(names[1..]);
      assert names == [names[0]] + names[1..];
    }
  }

  /**
   * The path shown for an existing metric splits back into the metric's path when its names are
   * free of `>`. The lone empty name is the exception: its join is empty and reads as no path.
   */
  lemma PathPrefillRoundTrip(path: seq<string>)
    requires path != [""]
    requires forall j | 0 <= j < |path| :: FreeOf(path[j], {'>'})
    ensures CategoryPathOf(PathPrefill(path)) == path
  {
    if |path| > 0 {
      SplitJoinPath(path);
      if |path| > 1 {
        assert Join(path, PathSeparator) == path[0] + PathSeparator + Join(path[1..], PathSeparator);
        assert |Join(path, PathSeparator)| >= 3;
      }
    }
  }

  /** Choosing a flattened option gives back that leaf's path when the tree's names are free of `>`. */
  lemma OptionRoundTrip(ns: seq<CategoryNode>, i: nat)
    requires NamesFree(ns)
    requires i < |LeafPaths(ns, [])|
    ensures CategoryPathOf(Some(JoinPaths(LeafPaths(ns, []))[i])) == LeafPaths(ns, [])[i]
  {
    LeafPathsPerLeaf(ns, []);
    LeafPathsFree(ns, []);
    var p := LeafPaths(ns, []);
    assert |p[i]| > 0 && PathName(p[i][0]);
    PathPrefillRoundTrip(p[i]);
  }

  /** Names that end in `" >"` are not separator-free and do not survive the round trip. */
  lemma SeparatorLikeNameSplits()
    ensures CategoryPathOf(PathPrefill(["x >", "y"])) == ["x", "> y"]
  {
    assert Join(["x >", "y"], PathSeparator) == "x > > y";
    var s := "x > > y";
    assert s[0] == 'x' && PathSeparator[0] == ' ';
    assert !(PathSeparator <= s);
    assert s[1..] == " > > y" && PathSeparator <= s[1..];
    assert s[1..][3..] == "> y";
    var t := "> y";
    assert !(PathSeparator <= t) && t[1..] == " y";
    assert !(PathSeparator <= t[1..]) && t[1..][1..] == "y";
    assert !(PathSeparator <= "y") && "y"[1..] == "";
    assert "" + ['>'] + [' '] + ['y'] == "> y";
    assert "" + ['x'] == "x";
  }

  // ---- the form ----

  /** The form's state: every input is text, and the category is the selected option, if any. */
  datatype RegistrationForm = RegistrationForm(
    categoryPath: Option<string>,
    businessName: string,
    businessDefinition: string,
    slug: string,
    technicalDefinition: string,
    larkSheetLink: string,
    queryType: string,
    querySource: string,
    originField: string,
    aggregate: string,
    businessDate: string,
    filtersRaw: string,
    analysisDimsRaw: string,
    queryLink: string)

  const DefaultQueryType: string := "Aeolus Visual Query"
  const DefaultAggregate: string := "SUM"

  /** A list shown in a text input: joined with `", "` when non-empty, else empty. */
  function ListPrefill(items: seq<string>): (r: string)
    ensures |items| == 0 ==> r == ""
  {
    if |items| > 0 then Join(items, ", ") else ""
  }

  /** The form's initial state, from the metric being edited (if any) and its first query. */
  function Prefill(initial: Option<Metric>): (r: RegistrationForm)
    ensures initial.None? ==> r == RegistrationForm(None, "", "", "", "", "", DefaultQueryType, "", "", DefaultAggregate, "", "", "", "")
    ensures initial.Some? ==>
      && r.categoryPath == PathPrefill(initial.value.categoryPath)
      && r.businessName == initial.value.businessName
      && r.businessDefinition == initial.value.businessDefinition
      && r.slug == initial.value.slug
      && r.technicalDefinition == initial.value.technicalDefinition
      && r.larkSheetLink == initial.value.larkSheetLink.GetOr("")
    ensures initial.Some? && |initial.value.queryDefinitions| > 0 ==>
      var q := initial.value.queryDefinitions[0];
      && r.queryType == q.kind
      && r.querySource == q.source
      && r.originField == q.originField
      && r.aggregate == q.aggregate
      && r.businessDate == q.businessDate
      && r.filtersRaw == ListPrefill(q.filters)
      && r.analysisDimsRaw == ListPrefill(q.analysisDimensions)
      && r.queryLink == q.link.GetOr("")
    ensures initial.Some? && |initial.value.queryDefinitions| == 0 ==>
      && r.queryType == DefaultQueryType
      && r.querySource == ""
      && r.originField == ""
      && r.aggregate == DefaultAggregate
      && r.businessDate == ""
      && r.filtersRaw == ""
      && r.analysisDimsRaw == ""
      && r.queryLink == ""
  {
    match initial
    case None => RegistrationForm(None, "", "", "", "", "", DefaultQueryType, "", "", DefaultAggregate, "", "", "", "")
    case Some(m) =>
      var base := if |m.queryDefinitions| > 0 then Some(m.queryDefinitions[0]) else None;
      RegistrationForm(
        PathPrefill(m.categoryPath),
        m.businessName,
        m.businessDefinition,
        m.slug,
        m.technicalDefinition,
        m.larkSheetLink.GetOr(""),
        if base.Some? then base.value.kind else DefaultQueryType,
        if base.Some? then base.value.source else "",
        if base.Some? then base.value.originField else "",
        if base.Some? then base.value.aggregate else DefaultAggregate,
        if base.Some? then base.value.businessDate else "",
        if base.Some? then ListPrefill(base.value.filters) else "",
        if base.Some? then ListPrefill(base.value.analysisDimensions) else "",
        if base.Some? then base.value.link.GetOr("") else "")
  }

  /**
   * `handleSubmit`: nothing is registered when the name or the slug is empty (neither is trimmed);
   * otherwise the category is split back into names, the lists are normalized and the links are
   * trimmed or dropped when blank.
   */
  function Submit(form: RegistrationForm): (r: Option<NewMetricPayload>)
    ensures r.None? <==> form.businessName == "" || form.slug == ""
    ensures r.Some? ==>
      && r.value.businessName == form.businessName
      && r.value.slug == form.slug
      && r.value.businessDefinition == form.businessDefinition
      && r.value.technicalDefinition == form.technicalDefinition
      && r.value.categoryPath == CategoryPathOf(form.categoryPath)
      && r.value.larkSheetLink == NonBlank(form.larkSheetLink)
    ensures r.Some? ==>
      && r.value.query.kind == form.queryType
      && r.value.query.source == form.querySource
      && r.value.query.originField == form.originField
      && r.value.query.aggregate == form.aggregate
      && r.value.query.businessDate == form.businessDate
      && r.value.query.filters == NormalizeFilters(form.filtersRaw)
      && r.value.query.analysisDimensions == NormalizeDimensions(form.analysisDimsRaw)
      && r.value.query.link == NonBlank(form.queryLink)
    ensures r.Some? ==>
      && CleanTokens(r.value.query.filters, FilterSeparators)
      && CleanTokens(r.value.query.analysisDimensions, DimensionSeparators)
      && (r.value.larkSheetLink.None? <==> AllSpace(form.larkSheetLink))
      && (r.value.query.link.None? <==> AllSpace(form.queryLink))
  {
    if form.businessName == "" || form.slug == "" then None
    else
      Some(NewMetricPayload(
        form.businessName,
        form.businessDefinition,
        form.slug,
        form.technicalDefinition,
        CategoryPathOf(form.categoryPath),
        NonBlank(form.larkSheetLink),
        QueryPayload(
          form.queryType,
          form.querySource,
          form.originField,
          form.aggregate,
          form.businessDate,
          NormalizeFilters(form.filtersRaw),
          NormalizeDimensions(form.analysisDimsRaw),
          NonBlank(form.queryLink))))
  }

  /** An untrimmed name or slug of spaces alone is still submitted. */
  lemma BlankNameIsSubmitted(form: RegistrationForm)
    requires form.businessName == " " && form.slug == " "
    ensures Submit(form).Some?
  {
  }

  /** A list shown by `ListPrefill` is read back unchanged by the normalizer. */
  lemma ListPrefillRoundTrip(filters: seq<string>, dims: seq<string>)
    requires CleanTokens(filters, FilterSeparators)
    requires CleanTokens(dims, DimensionSeparators)
    ensures NormalizeFilters(ListPrefill(filters)) == filters
    ensures NormalizeDimensions(ListPrefill(dims)) == dims
  {
    if |filters| > 0 {
      NormalizeFiltersOfPrefill(filters);
    } else {
      NormalizeBlank("");
    }
    if |dims| > 0 {
      NormalizeDimensionsOfPrefill(dims);
    } else {
      NormalizeBlank("");
    }
  }

  /**
   * Submitting the edit form of a metric unchanged gives back the metric's name, slug, path and
   * its first query's lists, as long as the path's names are `>`-free (and not the lone empty
   * name) and the lists are clean tokens.
   */
  lemma ResubmitPrefill(m: Metric)
    requires m.businessName != "" && m.slug != ""
    requires m.categoryPath != [""]
    requires forall j | 0 <= j < |m.categoryPath| :: FreeOf(m.categoryPath[j], {'>'})
    requires |m.queryDefinitions| > 0
    requires CleanTokens(m.queryDefinitions[0].filters, FilterSeparators)
    requires CleanTokens(m.queryDefinitions[0].analysisDimensions, DimensionSeparators)
    ensures Submit(Prefill(Some(m))).Some?
    ensures
      var p := Submit(Prefill(Some(m))).value;
      && p.businessName == m.businessName
      && p.slug == m.slug
      && p.categoryPath == m.categoryPath
      && p.query.kind == m.queryDefinitions[0].kind
      && p.query.filters == m.queryDefinitions[0].filters
      && p.query.analysisDimensions == m.queryDefinitions[0].analysisDimensions
      && p.larkSheetLink == NonBlankOpt(m.larkSheetLink)
  {
    PathPrefillRoundTrip(m.categoryPath);
    ListPrefillRoundTrip(m.queryDefinitions[0].filters, m.queryDefinitions[0].analysisDimensions);
    if m.larkSheetLink.None? {
      assert AllSpace("");
    }
  }
}
