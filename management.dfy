/**
 * The management workspace: the category tree's lookup, subtree counting and mock bulk move,
 * the metric-set sheet, the tag sheet, and the domain, category and dimension forms.
 */
module Management {
  import opened Wrappers
  import opened Strings
  import opened Seqs
  import opened Types
  import opened App

  // ---- the category tree ----

  function Children(n: CategoryNode): seq<CategoryNode> {
    match n.children
    case NoCategoryChildren => []
    case CategoryChildren(cs) => cs
  }

  /** The nodes of a forest in preorder: each node, then its subtree, then its later siblings. */
  function Preorder(ns: seq<CategoryNode>): seq<CategoryNode>
    decreases ns
  {
    if |ns| == 0 then []
    else SubtreePreorder(ns[0]) + Preorder(ns[1..])
  }

  function SubtreePreorder(n: CategoryNode): seq<CategoryNode>
    decreases n
  {
    [n] + match n.children
      case NoCategoryChildren => []
      case CategoryChildren(cs) => Preorder(cs)
  }

  function HasCategoryId(id: string): CategoryNode -> bool {
    (n: CategoryNode) => n.id == id
  }

  /** `findCategoryById` as a recursive definition: a node, else its subtree, else its later siblings. */
  function FindInForest(ns: seq<CategoryNode>, id: string): Option<CategoryNode>
    decreases ns
  {
    if |ns| == 0 then None
    else if ns[0].id == id then Some(ns[0])
    else
      var inChildren := match ns[0].children
        case NoCategoryChildren => None
        case CategoryChildren(cs) => FindInForest(cs, id);
      if inChildren.Some? then inChildren else FindInForest(ns[1..], id)
  }

  /** The lookup returns the first node in preorder with the id, and nothing when no node has it. */
  lemma {:induction false} FindInForestIsPreorderFind(ns: seq<CategoryNode>, id: string)
    ensures FindInForest(ns, id) == Find(Preorder(ns), HasCategoryId(id))
    decreases ns
  {
    if |ns| > 0 {
      var n := ns[0];
      var below := match n.children
        case NoCategoryChildren => []
        case CategoryChildren(cs) => Preorder(cs);
      assert SubtreePreorder(n) == [n] + below;
      FindConcat(SubtreePreorder(n), Preorder(ns[1..]), HasCategoryId(id));
      FindConcat([n], below, HasCategoryId(id));
      match n.children {
        case NoCategoryChildren =>
        case CategoryChildren(cs) =>
          FindInForestIsPreorderFind(cs, id);
      }
      FindInForestIsPreorderFind(ns[1..], id);
    }
  }

  /** Some node of the forest, at any depth, has the id. */
  predicate IdInForest(ns: seq<CategoryNode>, id: string) {
    exists i | 0 <= i < |Preorder(ns)| :: Preorder(ns)[i].id == id
  }

  /** The lookup finds nothing exactly when no node of the forest has the id; a found node has it. */
  lemma FindInForestSpec(ns: seq<CategoryNode>, id: string)
    ensures FindInForest(ns, id).None? <==> !IdInForest(ns, id)
    ensures FindInForest(ns, id).Some? ==>
      && FindInForest(ns, id).value.id == id
      && FindInForest(ns, id).value in Preorder(ns)
  {
    FindInForestIsPreorderFind(ns, id);
  }

  /** `findCategoryById`: a loop over the siblings with an early return, recursing into children. */
  method FindCategoryById(ns: seq<CategoryNode>, id: string) returns (r: Option<CategoryNode>)
    ensures r == FindInForest(ns, id)
    decreases ns
  {
    var i := 0;
    while i < |ns|
      invariant 0 <= i <= |ns|
      invariant FindInForest(ns, id) == FindInForest(ns[i..], id)
    {
      assert ns[i..][1..] == ns[i + 1..];
      if ns[i].id == id {
        return Some(ns[i]);
      }
      match ns[i].children {
        case NoCategoryChildren =>
        case CategoryChildren(cs) =>
          var found := FindCategoryById(cs, id);
          if found.Some? {
            return found;
          }
      }
      i := i + 1;
    }
    return None;
  }

  /** How many metrics a node lists itself (an absent list counts 0). */
  function OwnCount(n: CategoryNode): nat {
    match n.metricSlugs
    case None => 0
    case Some(slugs) => |slugs|
  }

  /** `countNode` as a recursive definition: own metrics plus those of every child subtree. */
  function SubtreeCount(n: CategoryNode): nat
    decreases n
  {
    OwnCount(n) + match n.children
      case NoCategoryChildren => 0
      case CategoryChildren(cs) => ForestCount(cs)
  }

  function ForestCount(ns: seq<CategoryNode>): nat
    decreases ns
  {
    if |ns| == 0 then 0 else SubtreeCount(ns[0]) + ForestCount(ns[1..])
  }

  /** The sum of the nodes' own counts. */
  function OwnTotal(ns: seq<CategoryNode>): nat {
    if |ns| == 0 then 0 else OwnCount(ns[0]) + OwnTotal(ns[1..])
  }

  lemma {:induction false} OwnTotalAppend(a: seq<CategoryNode>, b: seq<CategoryNode>)
    ensures OwnTotal(a + b) == OwnTotal(a) + OwnTotal(b)
    decreases |a|
  {
    if |a| == 0 {
      assert a + b == b;
    } else {
      assert (a + b)[1..] == a[1..] + b;
      OwnTotalAppend(a[1..], b);
    }
  }

  /** A subtree's count is the sum of the own counts of all its nodes. */
  lemma {:induction false} SubtreeCountIsTotal(n: CategoryNode)
    ensures SubtreeCount(n) == OwnTotal(SubtreePreorder(n))
    decreases n
  {
    match n.children {
      case NoCategoryChildren =>
        assert SubtreePreorder(n) == [n];
      case CategoryChildren(cs) =>
        ForestCountIsTotal(cs);
        OwnTotalAppend([n], Preorder(cs));
    }
  }

  lemma {:induction false} ForestCountIsTotal(ns: seq<CategoryNode>)
    ensures ForestCount(ns) == OwnTotal(Preorder(ns))
    decreases ns
  {
    if |ns| > 0 {
      SubtreeCountIsTotal(ns[0]);
      ForestCountIsTotal(ns[1..]);
      OwnTotalAppend(SubtreePreorder(ns[0]), Preorder(ns[1..]));
    }
  }

  /** `countNode`: the own count, then one loop step per child, recursing into each. */
  method CountNode(n: CategoryNode) returns (total: nat)
    ensures total == SubtreeCount(n)
    decreases n
  {
    total := OwnCount(n);
    match n.children {
      case NoCategoryChildren =>
      case CategoryChildren(cs) =>
        var i := 0;
        while i < |cs|
          invariant 0 <= i <= |cs|
          invariant total + ForestCount(cs[i..]) == SubtreeCount(n)
        {
          assert cs[i..][1..] == cs[i + 1..];
          var c := CountNode(cs[i]);
          total := total + c;
          i := i + 1;
        }
    }
  }

  /** `countMetricsInCategory` as a definition: 0 for an unknown id, else the found node's subtree count. */
  function MetricsInCategory(ns: seq<CategoryNode>, id: string): nat {
    match FindInForest(ns, id)
    case None => 0
    case Some(root) => SubtreeCount(root)
  }

  /** `countMetricsInCategory`. */
  method CountMetricsInCategory(ns: seq<CategoryNode>, id: string) returns (count: nat)
    ensures count == MetricsInCategory(ns, id)
    ensures !IdInForest(ns, id) ==> count == 0
  {
    FindInForestSpec(ns, id);
    var root := FindCategoryById(ns, id);
    if root.None? {
      return 0;
    }
    count := CountNode(root.value);
  }

  /** The outcome of `handleBulkMove`; the tree itself is never changed. */
  datatype BulkMoveOutcome =
    | NoOp
    | SameCategory
    | NothingToMove
    | WouldMove(count: nat, sourceName: string, targetName: string)

  function NameOr(found: Option<CategoryNode>, id: string): string {
    match found
    case Some(n) => n.name
    case None => id
  }

  function BulkMove(ns: seq<CategoryNode>, sourceId: string, targetId: string): (r: BulkMoveOutcome)
    ensures r.NoOp? <==> sourceId == "" || targetId == ""
    ensures r.SameCategory? <==> sourceId != "" && sourceId == targetId
    ensures r.NothingToMove? <==>
      sourceId != "" && targetId != "" && sourceId != targetId && MetricsInCategory(ns, sourceId) == 0
    ensures r.WouldMove? ==>
      && sourceId != targetId && r.count == MetricsInCategory(ns, sourceId) > 0
      && IdInForest(ns, sourceId) && r.sourceName == FindInForest(ns, sourceId).value.name
    ensures r.WouldMove? && FindInForest(ns, targetId).Some? ==> r.targetName == FindInForest(ns, targetId).value.name
    ensures r.WouldMove? && FindInForest(ns, targetId).None? ==> r.targetName == targetId
  {
    if sourceId == "" || targetId == "" then NoOp
    else if sourceId == targetId then SameCategory
    else
      var moved := MetricsInCategory(ns, sourceId);
      if moved == 0 then NothingToMove
      else
        FindInForestSpec(ns, sourceId);
        WouldMove(moved, NameOr(FindInForest(ns, sourceId), sourceId), NameOr(FindInForest(ns, targetId), targetId))
  }

  function BulkMoveMessage(outcome: BulkMoveOutcome): Option<string> {
    match outcome
    case NoOp => None
    case SameCategory => Some("Source and target categories are the same. Nothing to move.")
    case NothingToMove => Some("No metrics found under the given source category in the mock tree.")
    case WouldMove(count, source, target) =>
      Some("Mock: would move " + NatToString(count) + " metrics from \"" + source + "\" to \"" + target
           + "\". The actual tree is not mutated in this demo.")
  }

  /** The category management view's state: the chosen ids and the message shown. */
  class CategoryMover {
    var sourceId: string
    var targetId: string
    var message: Option<string>

    constructor()
      ensures sourceId == "" && targetId == "" && message.None?
    {
      sourceId := "";
      targetId := "";
      message := None;
    }

    /** The two category selects. */
    method ChooseCategories(source: string, target: string)
      modifies this
      ensures sourceId == source && targetId == target && message == old(message)
    {
      sourceId := source;
      targetId := target;
    }

    /** `handleBulkMove`: only the message changes, and not at all when an id is missing. */
    method BulkMoveClicked(categories: seq<CategoryNode>)
      modifies this
      ensures sourceId == old(sourceId) && targetId == old(targetId)
      ensures var outcome := BulkMove(categories, sourceId, targetId);
        message == if outcome.NoOp? then old(message) else BulkMoveMessage(outcome)
    {
      var outcome := BulkMove(categories, sourceId, targetId);
      if !outcome.NoOp? {
        message := BulkMoveMessage(outcome);
      }
    }
  }

  // ---- the metric-set sheet ----

  /** The first metric's slug, or "". */
  function FirstMetricSlug(metrics: seq<Metric>): string {
    if |metrics| > 0 then metrics[0].slug else ""
  }

  /** `a || b`: `b` when `a` is empty. */
  function OrElse(a: string, b: string): string {
    if a == "" then b else a
  }

  function FirstDomainId(domains: seq<Domain>): string {
    var unique := UniqueById(domains);
    if |unique| > 0 then unique[0].id else ""
  }

  const NameRequiredMessage := "Name is required."

  function SetNameClashMessage(name: string): string {
    "Metric set with name \"" + name + "\" already exists (mock uniqueness validation)."
  }

  function AlreadyAddedMessage(slug: string): string {
    "Metric \"" + slug + "\" is already added to this metric set (mock)."
  }

  /** Another set than the one being edited (if any) already has the name. */
  predicate SetNameTaken(sets: seq<Album>, name: string, editing: Option<Album>) {
    exists i | 0 <= i < |sets| :: sets[i].name == name && (editing.None? || sets[i].id != editing.value.id)
  }

  predicate UniqueSetNames(sets: seq<Album>) {
    forall i, j | 0 <= i < j < |sets| :: sets[i].name != sets[j].name
  }

  predicate UniqueSetIds(sets: seq<Album>) {
    forall i, j | 0 <= i < j < |sets| :: sets[i].id != sets[j].id
  }

  /** The fields of the metric-set form. */
  datatype SetFields = SetFields(name: string, description: string, visibility: Visibility, domainId: string,
                                 metricSlugs: seq<string>, tagIds: seq<string>)

  /** The set the form describes: edits keep the edited set's id, scope and creation time. */
  function SubmittedSet(fields: SetFields, editing: Option<Album>, now: nat, nowIso: string): (r: Album)
    ensures r.name == Trim(fields.name) && r.metricSlugs == fields.metricSlugs && r.tags == fields.tagIds
    ensures r.description == Trim(fields.description) && r.visibility == fields.visibility
    ensures r.domain == (if fields.domainId == "" then "Custom" else fields.domainId)
    ensures r.updatedAt == Some(nowIso)
    ensures editing.Some? ==>
      && r.id == editing.value.id && r.scope == editing.value.scope
      && r.createdAt == editing.value.createdAt
    ensures editing.None? ==> r.id == "a-" + NatToString(now) && r.scope == "" && r.createdAt == Some(nowIso)
  {
    match editing
    case Some(album) =>
      album.(name := Trim(fields.name), description := Trim(fields.description), visibility := fields.visibility,
           domain := OrElse(fields.domainId, "Custom"), metricSlugs := fields.metricSlugs, tags := fields.tagIds,
           updatedAt := Some(nowIso))
    case None =>
      Album("a-" + NatToString(now), Trim(fields.name), Trim(fields.description), "", fields.visibility,
            OrElse(fields.domainId, "Custom"), fields.metricSlugs, fields.tagIds, Some(nowIso), Some(nowIso))
  }

  /**
   * The metric-set sheet's submit: the new list of sets, or the message. An edit replaces every
   * set with the edited id; a creation appends.
   */
  function SetSubmission(fields: SetFields, sets: seq<Album>, editing: Option<Album>, now: nat, nowIso: string)
    : (r: Result<seq<Album>, string>)
    ensures r.Err? <==> AllSpace(fields.name) || SetNameTaken(sets, Trim(fields.name), editing)
    ensures r.Err? && AllSpace(fields.name) ==> r.error == NameRequiredMessage
    ensures r.Ok? && editing.None? ==> r.value == sets + [SubmittedSet(fields, editing, now, nowIso)]
    ensures r.Ok? && editing.Some? ==> |r.value| == |sets| && forall i | 0 <= i < |sets| ::
      r.value[i] == if sets[i].id == editing.value.id then SubmittedSet(fields, editing, now, nowIso) else sets[i]
  {
    TrimEmptyIffBlank(fields.name);
    var trimmed := Trim(fields.name);
    if trimmed == "" then Err(NameRequiredMessage)
    else if SetNameTaken(sets, trimmed, editing) then Err(SetNameClashMessage(trimmed))
    else
      var album := SubmittedSet(fields, editing, now, nowIso);
      match editing
      case Some(e) => Ok(seq(|sets|, i requires 0 <= i < |sets| => if sets[i].id == e.id then album else sets[i]))
      case None => Ok(sets + [album])
  }

  /** Accepted submissions keep set names unique, as long as the set ids are unique. */
  lemma SetSubmissionKeepsNamesUnique(fields: SetFields, sets: seq<Album>, editing: Option<Album>, now: nat, nowIso: string)
    requires UniqueSetNames(sets) && UniqueSetIds(sets)
    requires SetSubmission(fields, sets, editing, now, nowIso).Ok?
    ensures UniqueSetNames(SetSubmission(fields, sets, editing, now, nowIso).value)
  {
    var r := SetSubmission(fields, sets, editing, now, nowIso).value;
    var name := Trim(fields.name);
    assert !SetNameTaken(sets, name, editing);
    forall i, j | 0 <= i < j < |r| ensures r[i].name != r[j].name {
      if editing.None? {
        if j == |sets| {
          assert r[i] == sets[i];
        } else {
          assert r[i] == sets[i] && r[j] == sets[j];
        }
      }
    }
  }

  /** The metric-set sheet's state. */
  class SetSheet {
    var fields: SetFields
    var selectedMetricSlug: string
    var message: Option<string>

    constructor(metrics: seq<Metric>, domains: seq<Domain>)
      ensures fields == SetFields("", "", Team, FirstDomainId(domains), [], [])
      ensures selectedMetricSlug == FirstMetricSlug(metrics) && message.None?
    {
      fields := SetFields("", "", Team, FirstDomainId(domains), [], []);
      selectedMetricSlug := FirstMetricSlug(metrics);
      message := None;
    }

    /** The effect run when the sheet opens: prefill from the edited set, or from the initial selection. */
    method ResetOnOpen(open: bool, editing: Option<Album>, initialSlugs: seq<string>, initialDomainId: string,
                       metrics: seq<Metric>, domains: seq<Domain>)
      modifies this
      ensures !open ==> unchanged(this)
      ensures open && editing.Some? ==>
        var album := editing.value;
        && fields == SetFields(album.name, album.description, album.visibility, OrElse(album.domain, FirstDomainId(domains)),
                               album.metricSlugs, album.tags)
        && selectedMetricSlug == (if |album.metricSlugs| > 0 then album.metricSlugs[0] else FirstMetricSlug(metrics))
        && message.None?
      ensures open && editing.None? ==>
        && fields == SetFields("", "", Team, OrElse(initialDomainId, FirstDomainId(domains)), initialSlugs, [])
        && selectedMetricSlug == (if |initialSlugs| > 0 then initialSlugs[0] else FirstMetricSlug(metrics))
        && message.None?
    {
      if !open {
        return;
      }
      var initial: seq<string>;
      match editing {
        case Some(album) =>
          fields := SetFields(album.name, album.description, album.visibility, OrElse(album.domain, FirstDomainId(domains)),
                              album.metricSlugs, album.tags);
          initial := album.metricSlugs;
        case None =>
          fields := SetFields("", "", Team, OrElse(initialDomainId, FirstDomainId(domains)), initialSlugs, []);
          initial := initialSlugs;
      }
      selectedMetricSlug := if |initial| > 0 then initial[0] else FirstMetricSlug(metrics);
      message := None;
    }

    /** `handleAddMetricRef`: appends the selected slug when it is non-empty and not yet listed. */
    method AddMetricRef()
      modifies this
      ensures selectedMetricSlug == old(selectedMetricSlug)
      ensures old(selectedMetricSlug) == "" ==> fields == old(fields) && message == old(message)
      ensures old(selectedMetricSlug) != "" && old(selectedMetricSlug) in old(fields.metricSlugs) ==>
        fields == old(fields) && message == Some(AlreadyAddedMessage(old(selectedMetricSlug)))
      ensures old(selectedMetricSlug) != "" && old(selectedMetricSlug) !in old(fields.metricSlugs) ==>
        fields == old(fields).(metricSlugs := old(fields.metricSlugs) + [old(selectedMetricSlug)]) && message.None?
      ensures NoDup(old(fields.metricSlugs)) ==> NoDup(fields.metricSlugs)
    {
      if selectedMetricSlug == "" {
        return;
      }
      if selectedMetricSlug in fields.metricSlugs {
        message := Some(AlreadyAddedMessage(selectedMetricSlug));
        return;
      }
      fields := fields.(metricSlugs := fields.metricSlugs + [selectedMetricSlug]);
      message := None;
    }

    /** `handleSubmit`: the new list of sets to hand up, or the message shown. */
    method Submit(sets: seq<Album>, editing: Option<Album>, now: nat, nowIso: string)
      returns (next: Option<seq<Album>>)
      modifies this
      ensures fields == old(fields) && selectedMetricSlug == old(selectedMetricSlug)
      ensures match SetSubmission(fields, sets, editing, now, nowIso)
        case Ok(s) => next == Some(s) && message == old(message)
        case Err(m) => next.None? && message == Some(m)
    {
      match SetSubmission(fields, sets, editing, now, nowIso)
      case Ok(s) =>
        next := Some(s);
      case Err(m) =>
        message := Some(m);
        next := None;
    }
  }

  // ---- the tag sheet ----

  /** The key two tag names clash on: trimmed and lower-cased. */
  function TagKey(name: string): string {
    ToLower(Trim(name))
  }

  predicate TagNameTaken(tags: seq<Tag>, name: string, except: Option<string>) {
    exists i | 0 <= i < |tags| :: TagKey(tags[i].name) == ToLower(name) && (except.None? || tags[i].id != except.value)
  }

  /** No two tags have names that are equal once trimmed and lower-cased. */
  predicate DistinctTagNames(tags: seq<Tag>) {
    forall i, j | 0 <= i < j < |tags| :: TagKey(tags[i].name) != TagKey(tags[j].name)
  }

  predicate UniqueTagIds(tags: seq<Tag>) {
    forall i, j | 0 <= i < j < |tags| :: tags[i].id != tags[j].id
  }

  const TagRequiredMessage := "Tag name is required."

  function TagExistsMessage(name: string): string {
    "Tag \"" + name + "\" already exists."
  }

  /** `handleAddTag`: the tag list with the new tag appended, or the message. */
  function AddTag(tags: seq<Tag>, name: string, now: nat): (r: Result<seq<Tag>, string>)
    ensures r.Err? <==> AllSpace(name) || TagNameTaken(tags, Trim(name), None)
    ensures r.Ok? ==> r.value == tags + [Tag("tag-" + NatToString(now), Trim(name))]
  {
    TrimEmptyIffBlank(name);
    var trimmed := Trim(name);
    if trimmed == "" then Err(TagRequiredMessage)
    else if TagNameTaken(tags, trimmed, None) then Err(TagExistsMessage(trimmed))
    else Ok(tags + [Tag("tag-" + NatToString(now), trimmed)])
  }

  /** Adding a tag keeps tag names distinct. */
  lemma AddTagKeepsNamesDistinct(tags: seq<Tag>, name: string, now: nat)
    requires DistinctTagNames(tags)
    requires AddTag(tags, name, now).Ok?
    ensures DistinctTagNames(AddTag(tags, name, now).value)
  {
    var r := AddTag(tags, name, now).value;
    TrimIdempotent(name);
    assert TagKey(r[|tags|].name) == ToLower(Trim(name));
    forall i, j | 0 <= i < j < |r| ensures TagKey(r[i].name) != TagKey(r[j].name) {
      assert r[i] == tags[i];
      if j < |tags| {
        assert r[j] == tags[j];
      }
    }
  }

  /** `handleSaveRename`: every tag with the edited id renamed, or the message. */
  function RenameTag(tags: seq<Tag>, editingId: string, name: string): (r: Result<seq<Tag>, string>)
    ensures r.Err? <==> AllSpace(name) || TagNameTaken(tags, Trim(name), Some(editingId))
    ensures r.Ok? ==> |r.value| == |tags| && forall i | 0 <= i < |tags| ::
      r.value[i] == if tags[i].id == editingId then tags[i].(name := Trim(name)) else tags[i]
  {
    TrimEmptyIffBlank(name);
    var trimmed := Trim(name);
    if trimmed == "" then Err(TagRequiredMessage)
    else if TagNameTaken(tags, trimmed, Some(editingId)) then Err(TagExistsMessage(trimmed))
    else Ok(seq(|tags|, i requires 0 <= i < |tags| => if tags[i].id == editingId then tags[i].(name := trimmed) else tags[i]))
  }

  /** Renaming keeps tag names distinct, as long as tag ids are unique. */
  lemma RenameTagKeepsNamesDistinct(tags: seq<Tag>, editingId: string, name: string)
    requires DistinctTagNames(tags) && UniqueTagIds(tags)
    requires RenameTag(tags, editingId, name).Ok?
    ensures DistinctTagNames(RenameTag(tags, editingId, name).value)
    ensures UniqueTagIds(RenameTag(tags, editingId, name).value)
  {
    TrimIdempotent(name);
  }

  function TagIdIsNot(id: string): Tag -> bool {
    (t: Tag) => t.id != id
  }

  function StringIsNot(id: string): string -> bool {
    (s: string) => s != id
  }

  /** Every set with the tag id erased from its tags; nothing else about the sets changes. */
  function UntagSets(sets: seq<Album>, id: string): (r: seq<Album>)
    ensures |r| == |sets|
    ensures forall i | 0 <= i < |r| :: r[i] == sets[i].(tags := r[i].tags)
    ensures forall i, t | 0 <= i < |r| :: t in r[i].tags <==> t in sets[i].tags && t != id
  {
    seq(|sets|, i requires 0 <= i < |sets| => sets[i].(tags := Filter(sets[i].tags, StringIsNot(id))))
  }

  /** `handleDeleteTag`: the tag removed and its id erased from every set. */
  function DeleteTag(tags: seq<Tag>, sets: seq<Album>, id: string): (r: (seq<Tag>, seq<Album>))
    ensures forall t :: t in r.0 <==> t in tags && t.id != id
    ensures r.1 == UntagSets(sets, id)
  {
    (Filter(tags, TagIdIsNot(id)), UntagSets(sets, id))
  }

  /**
   * The surviving tags keep their order: deleting from a concatenation deletes from each part, and a
   * single tag survives exactly when its id differs.
   */
  lemma DeleteTagKeepsOrder(a: seq<Tag>, b: seq<Tag>, t: Tag, sets: seq<Album>, id: string)
    ensures DeleteTag(a + b, sets, id).0 == DeleteTag(a, sets, id).0 + DeleteTag(b, sets, id).0
    ensures DeleteTag([t], sets, id).0 == (if t.id == id then [] else [t])
  {
    FilterAppend(a, b, TagIdIsNot(id));
    FilterCons(t, [], TagIdIsNot(id));
    assert [t] + [] == [t];
  }

  /** After deleting a tag no set refers to it. */
  lemma DeleteTagLeavesNoReference(tags: seq<Tag>, sets: seq<Album>, id: string)
    ensures forall i | 0 <= i < |DeleteTag(tags, sets, id).1| :: id !in DeleteTag(tags, sets, id).1[i].tags
  {
  }

  /** The tag sheet's state. */
  class TagSheet {
    var newTagName: string
    var editingTagId: Option<string>
    var editingName: string
    var message: Option<string>

    constructor()
      ensures newTagName == "" && editingTagId.None? && editingName == "" && message.None?
    {
      newTagName := "";
      editingTagId := None;
      editingName := "";
      message := None;
    }

    /** Closing the sheet clears it. */
    method OpenChanged(open: bool)
      modifies this
      ensures open ==> unchanged(this)
      ensures !open ==> newTagName == "" && editingTagId.None? && editingName == "" && message.None?
    {
      if !open {
        newTagName := "";
        editingTagId := None;
        editingName := "";
        message := None;
      }
    }

    method Add(tags: seq<Tag>, now: nat) returns (next: Option<seq<Tag>>)
      modifies this
      ensures editingTagId == old(editingTagId) && editingName == old(editingName)
      ensures match AddTag(tags, old(newTagName), now)
        case Ok(t) => next == Some(t) && newTagName == "" && message.None?
        case Err(m) => next.None? && newTagName == old(newTagName) && message == Some(m)
    {
      match AddTag(tags, newTagName, now)
      case Ok(t) =>
        next := Some(t);
        newTagName := "";
        message := None;
      case Err(m) =>
        next := None;
        message := Some(m);
    }

    method StartRename(tag: Tag)
      modifies this
      ensures editingTagId == Some(tag.id) && editingName == tag.name && message.None?
      ensures newTagName == old(newTagName)
    {
      editingTagId := Some(tag.id);
      editingName := tag.name;
      message := None;
    }

    /** `handleSaveRename`: nothing happens unless a tag is being edited. */
    method SaveRename(tags: seq<Tag>) returns (next: Option<seq<Tag>>)
      modifies this
      ensures newTagName == old(newTagName)
      ensures old(editingTagId).None? || old(editingTagId) == Some("") ==> unchanged(this) && next.None?
      ensures old(editingTagId).Some? && old(editingTagId) != Some("") ==>
        match RenameTag(tags, old(editingTagId).value, old(editingName))
        case Ok(t) => next == Some(t) && editingTagId.None? && editingName == "" && message.None?
        case Err(m) => next.None? && editingTagId == old(editingTagId) && editingName == old(editingName)
                       && message == Some(m)
    {
      if editingTagId.None? || editingTagId == Some("") {
        return None;
      }
      match RenameTag(tags, editingTagId.value, editingName)
      case Ok(t) =>
        next := Some(t);
        editingTagId := None;
        editingName := "";
        message := None;
      case Err(m) =>
        next := None;
        message := Some(m);
    }

    /** `handleDeleteTag`: the new tags and sets; an edit of the deleted tag is abandoned. */
    method Delete(tags: seq<Tag>, sets: seq<Album>, id: string) returns (nextTags: seq<Tag>, nextSets: seq<Album>)
      modifies this
      ensures (nextTags, nextSets) == DeleteTag(tags, sets, id)
      ensures newTagName == old(newTagName) && message.None?
      ensures old(editingTagId) == Some(id) ==> editingTagId.None? && editingName == ""
      ensures old(editingTagId) != Some(id) ==> editingTagId == old(editingTagId) && editingName == old(editingName)
    {
      var r := DeleteTag(tags, sets, id);
      nextTags := r.0;
      nextSets := r.1;
      if editingTagId == Some(id) {
        editingTagId := None;
        editingName := "";
      }
      message := None;
    }
  }

  // ---- domain, category and dimension forms ----

  predicate IsDigit(c: char) {
    '0' <= c <= '9'
  }

  /** `/^\d+$/`: one or more ASCII digits and nothing else. */
  predicate AllDigits(s: string) {
    |s| > 0 && forall i | 0 <= i < |s| :: IsDigit(s[i])
  }

  const DomainRequiredMessage := "ID, name, data source type and data source link are required."
  const DomainDigitsMessage := "Domain ID must be digits only."

  /** The new-domain form's submit: the trimmed payload, or the message. */
  function DomainSubmission(id: string, name: string, description: string, sourceType: string, sourceLink: string)
    : (r: Result<DomainPayload, string>)
    ensures r.Ok? <==> (!AllSpace(id) && !AllSpace(name) && !AllSpace(sourceType) && !AllSpace(sourceLink)
                        && AllDigits(Trim(id)))
    ensures r.Ok? ==>
      && AllDigits(r.value.id) && r.value.name != "" && r.value.sourceType != "" && r.value.sourceLink != ""
      && r.value == DomainPayload(Trim(id), Trim(name), Trim(description), Trim(sourceType), Trim(sourceLink))
  {
    TrimEmptyIffBlank(id);
    TrimEmptyIffBlank(name);
    TrimEmptyIffBlank(sourceType);
    TrimEmptyIffBlank(sourceLink);
    if Trim(id) == "" || Trim(name) == "" || Trim(sourceType) == "" || Trim(sourceLink) == "" then
      Err(DomainRequiredMessage)
    else if !AllDigits(Trim(id)) then Err(DomainDigitsMessage)
    else Ok(DomainPayload(Trim(id), Trim(name), Trim(description), Trim(sourceType), Trim(sourceLink)))
  }

  /** An id with a non-digit is refused for its digits even when every field is filled. */
  lemma DomainIdMustBeDigits()
    ensures DomainSubmission("12a", "Sales", "", "table", "url") == Err(DomainDigitsMessage)
  {
    assert Trimmed("12a") && Trimmed("Sales") && Trimmed("table") && Trimmed("url");
    TrimOfTrimmed("12a");
    TrimOfTrimmed("Sales");
    TrimOfTrimmed("table");
    TrimOfTrimmed("url");
    assert !IsDigit("12a"[2]);
  }

  /** The id is checked after trimming: surrounding spaces do not make it fail the digit rule. */
  lemma DomainIdIsTrimmed()
    ensures DomainSubmission(" 42 ", "Sales", "", "table", "url") == Ok(DomainPayload("42", "Sales", "", "table", "url"))
  {
    assert Trimmed("Sales") && Trimmed("table") && Trimmed("url") && Trimmed("");
    TrimOfTrimmed("Sales");
    TrimOfTrimmed("table");
    TrimOfTrimmed("url");
    TrimOfTrimmed("");
    assert " 42 " == [' '] + "42 ";
    TrimSkipsLeadingSpace(' ', "42 ");
    assert "42 "[0] == '4' && TrimStart("42 ") == "42 ";
    assert "42 "[2] == ' ' && "42 "[..2] == "42";
    assert "42"[1] == '2' && TrimEnd("42") == "42";
    assert TrimEnd("42 ") == "42";
    assert AllDigits("42");
  }

  const IdNameRequiredMessage := "ID and name are required."

  /** The new-category form's submit. */
  function CategorySubmission(id: string, name: string, description: string): (r: Result<CategoryPayload, string>)
    ensures r.Ok? <==> !AllSpace(id) && !AllSpace(name)
    ensures r.Ok? ==> r.value == CategoryPayload(Trim(id), Trim(name), Trim(description))
    ensures r.Err? ==> r.error == IdNameRequiredMessage
  {
    TrimEmptyIffBlank(id);
    TrimEmptyIffBlank(name);
    if Trim(id) == "" || Trim(name) == "" then Err(IdNameRequiredMessage)
    else Ok(CategoryPayload(Trim(id), Trim(name), Trim(description)))
  }

  /** The fields of the dimension form. */
  datatype DimensionFields = DimensionFields(id: string, name: string, description: string, category: string,
                                             sourceLink: string)

  function OrEmpty(o: Option<string>): string {
    match o
    case None => ""
    case Some(v) => v
  }

  /** What the dimension form shows when it opens: the edited dimension's fields, or blanks. */
  function DimensionPrefill(editing: Option<Dimension>): (r: DimensionFields)
    ensures editing.None? ==> r == DimensionFields("", "", "", "", "")
    ensures editing.Some? ==>
      && r.id == editing.value.id
      && r.name == editing.value.name
      && r.description == editing.value.description
      && r.category == (if editing.value.category.Some? then editing.value.category.value else "")
      && r.sourceLink == (if editing.value.sourceLink.Some? then editing.value.sourceLink.value else "")
  {
    match editing
    case None => DimensionFields("", "", "", "", "")
    case Some(d) => DimensionFields(d.id, d.name, d.description, OrEmpty(d.category), OrEmpty(d.sourceLink))
  }

  /** The dimension form's submit: an edit keeps the edited dimension's id and needs only a name. */
  function DimensionSubmission(f: DimensionFields, editing: Option<Dimension>): (r: Result<DimensionPayload, string>)
    ensures r.Ok? <==> !AllSpace(f.name) && (editing.Some? || !AllSpace(f.id))
    ensures r.Ok? ==>
      && r.value.name == Trim(f.name) && r.value.name != ""
      && r.value.id == (if editing.Some? then editing.value.id else Trim(f.id))
      && r.value.description == Trim(f.description) && r.value.category == Trim(f.category)
      && r.value.sourceLink == Trim(f.sourceLink)
    ensures r.Err? ==> r.error == IdNameRequiredMessage
  {
    TrimEmptyIffBlank(f.id);
    TrimEmptyIffBlank(f.name);
    if Trim(f.name) == "" || (editing.None? && Trim(f.id) == "") then Err(IdNameRequiredMessage)
    else Ok(DimensionPayload(if editing.Some? then editing.value.id else Trim(f.id), Trim(f.name),
                             Trim(f.description), Trim(f.category), Trim(f.sourceLink)))
  }

  /**
   * Opening a tidy dimension for editing and saving without changes gives back the same
   * dimension, apart from its update time.
   */
  lemma SaveUnchangedDimension(d: Dimension, nowIso: string)
    requires d.name != "" && Trimmed(d.name) && Trimmed(d.description)
    requires d.category.Some? && Trimmed(d.category.value) && d.sourceLink.Some? && Trimmed(d.sourceLink.value)
    ensures DimensionSubmission(DimensionPrefill(Some(d)), Some(d)).Ok?
    ensures EditedDimension(d, DimensionSubmission(DimensionPrefill(Some(d)), Some(d)).value, nowIso)
      == d.(updatedAt := Some(nowIso))
  {
    TrimOfTrimmed(d.name);
    TrimOfTrimmed(d.description);
    TrimOfTrimmed(d.category.value);
    TrimOfTrimmed(d.sourceLink.value);
    TrimEmptyIffBlank(d.name);
  }
}
