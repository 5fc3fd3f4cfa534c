/**
 The page revision history block: an ordered list of the revisions of the
 current wiki node that the user may view, each either plain content (the
 current node) or a link (to the revision itself or to its changes view),
 followed by an optional changes-view toggle and an optional "Build changes"
 link; plus the block's cache contexts and tags.
 */
module PageRevisionHistory {
  import opened Php
  import opened Host
  import opened Cache

  const CanonicalRoute: string := "entity.node.canonical"
  const ChangesRoute: string := "entity.node.omnipedia_changes"
  const ChangesBuildRoute: string := "entity.node.omnipedia_changes.build"

  const ListItemClass: string := "omnipedia-wiki-page-revisions__list-item"
  const DateClass: string := "omnipedia-wiki-page-revisions__list-item-date"
  const BreakClass: string := "omnipedia-wiki-page-revisions__list-item-break"
  const StatusClass: string := "omnipedia-wiki-page-revisions__list-item-status"
  const UnpublishedClass: string := "omnipedia-wiki-page-revisions__list-item--unpublished"
  const CurrentClass: string := "omnipedia-wiki-page-revisions__list-item--current"
  const UnpublishedLabel: string := "(unpublished)"

  const DefaultLabel: string := "Revision history"

  const ExitChangesTitle: string := "Exit changes view"
  const ExitChangesHint: string := "Stop displaying changes between this page and its previous revision."
  const ViewChangesTitle: string := "View changes"
  const ViewChangesHint: string := "View changes between this page and its previous revision."
  const BuildChangesTitle: string := "Build changes"
  const BuildChangesHint: string := "Build or rebuild the changes between this page and its previous revision for the current user."

  /** `label()`: the configured label unless PHP treats it as empty (so
      `"0"` too), the default label otherwise. Either way the block always
      has a label PHP considers non-empty. */
  function Label(configured: Option<string>): (l: string)
    ensures !Empty(configured) ==> l == configured.value
    ensures Empty(configured) ==> l == DefaultLabel
    ensures !EmptyString(l)
  {
    if !Empty(configured) then configured.value else DefaultLabel
  }

  /** One revision of a wiki node, as the node's revision listing gives it.
      The listing is taken to give an integer `nid` and a boolean `published`:
      the block compares both with `===`, so a string nid would never match
      the current node and a `published` of `0` or `null` would count as
      published. */
  datatype RevisionData = RevisionData(nid: int, date: string, published: bool)

  /** A resolved wiki node: its own nid and its revisions in listing order. */
  datatype WikiNode = WikiNode(nid: int, revisions: seq<RevisionData>)

  /** The current route: its name and, if its `node` parameter resolves to a
      wiki node, that node. */
  datatype RouteMatch = RouteMatch(routeName: string, node: Option<WikiNode>)

  /** A revision with the user's access to its canonical route attached, as
      a boolean (the block skips a revision only when it is `=== false`). */
  datatype RevisionEntry = RevisionEntry(nid: int, date: string, published: bool, access: bool)

  /** A piece of an item's content. */
  datatype Part =
    | Time(cls: string, datetime: string, text: string)
    | LineBreak(cls: string)
    | Status(cls: string, text: string)

  /** A list item: the classes on the list item, its content, and, unless it is
      plain content, the URL its content links to. */
  datatype Item = Item(classes: seq<string>, content: seq<Part>, link: Option<RouteUrl>)

  /** A link wrapped in its own container: the toggle and the build link. */
  datatype ActionLink = ActionLink(url: RouteUrl, title: string, hint: string)

  datatype RevisionHistory =
    | NoOutput
    | RevisionList(items: seq<Item>, toggle: Option<ActionLink>, buildLink: Option<ActionLink>)

  /** `getWikiNodeRevisions()`: the current wiki node's revisions with the
      user's canonical-route access attached, or nothing when the route has no
      wiki node. */
  function WikiNodeRevisions(route: RouteMatch, access: RouteAccess): (entries: seq<RevisionEntry>)
    ensures route.node.None? ==> entries == []
    ensures route.node.Some? ==> |entries| == |route.node.value.revisions|
    ensures route.node.Some? ==>
      forall i :: 0 <= i < |entries| ==>
        var rev := route.node.value.revisions[i];
        && entries[i].nid == rev.nid
        && entries[i].date == rev.date
        && entries[i].published == rev.published
        && (entries[i].access <==> CheckNamedRoute(access, CanonicalRoute, rev.nid))
  {
    match route.node
    case None => []
    case Some(node) =>
      seq(|node.revisions|, i requires 0 <= i < |node.revisions| =>
        var rev := node.revisions[i];
        RevisionEntry(rev.nid, rev.date, rev.published, CheckNamedRoute(access, CanonicalRoute, rev.nid)))
  }

  /** Whether the current route is the changes view. */
  predicate InChangesView(route: RouteMatch)
  {
    route.routeName == ChangesRoute
  }

  /** The content of one item: the date, then for an unpublished revision a
      line break and the "(unpublished)" marker. */
  function ItemContent(entry: RevisionEntry, timeline: Timeline): seq<Part>
  {
    [Time(DateClass, GetDateFormatted(timeline, entry.date, Html), GetDateFormatted(timeline, entry.date, Short))]
    + (if !entry.published then [LineBreak(BreakClass), Status(StatusClass, UnpublishedLabel)] else [])
  }

  /** An item's content: the date first, formatted for the attribute and for
      display; then, for an unpublished revision only, the break followed by
      the marker. */
  lemma ItemContentOrder(entry: RevisionEntry, timeline: Timeline)
    ensures var content := ItemContent(entry, timeline);
      && |content| >= 1
      && content[0] == Time(DateClass, timeline.formatted(entry.date, Html), timeline.formatted(entry.date, Short))
      && content[1..] == (if !entry.published then [LineBreak(BreakClass), Status(StatusClass, UnpublishedLabel)] else [])
      && (LineBreak(BreakClass) in content <==> !entry.published)
      && (Status(StatusClass, UnpublishedLabel) in content <==> !entry.published)
  {
  }

  /** The list item for one accessible revision. */
  function RenderItem(entry: RevisionEntry, currentNid: int, inChangesView: bool, access: RouteAccess, timeline: Timeline): (item: Item)
    // The content is the date, then the unpublished marker when it applies.
    ensures item.content == ItemContent(entry, timeline)
    // Unpublished revisions, and only they, get the unpublished class.
    ensures UnpublishedClass in item.classes <==> !entry.published
    // The current node is plain content with the current class; the others are links.
    ensures item.link.None? <==> entry.nid == currentNid
    ensures CurrentClass in item.classes <==> entry.nid == currentNid
    ensures |item.classes| >= 1 && item.classes[0] == ListItemClass
    // Exactly the base class, then the unpublished class, then the current class.
    ensures item.classes == [ListItemClass]
      + (if !entry.published then [UnpublishedClass] else [])
      + (if entry.nid == currentNid then [CurrentClass] else [])
    // A link always targets this revision, through the changes route exactly
    // when the changes view is active and the user may see this revision's changes.
    ensures item.link.Some? ==> item.link.value.nid == entry.nid
    ensures item.link.Some? ==> item.link.value.route in {CanonicalRoute, ChangesRoute}
    ensures item.link.Some? ==>
      (item.link.value.route == ChangesRoute <==> inChangesView && CheckNamedRoute(access, ChangesRoute, entry.nid))
  {
    var classes := [ListItemClass]
      + (if !entry.published then [UnpublishedClass] else [])
      + (if entry.nid == currentNid then [CurrentClass] else []);
    var content := ItemContent(entry, timeline);
    if entry.nid == currentNid then
      Item(classes, content, None)
    else if inChangesView && CheckNamedRoute(access, ChangesRoute, entry.nid) then
      Item(classes, content, Some(RouteUrl(ChangesRoute, entry.nid)))
    else
      Item(classes, content, Some(RouteUrl(CanonicalRoute, entry.nid)))
  }

  /** The items for a revision listing: one per accessible revision, in
      listing order, defined the way the loop builds them (by appending). */
  function Items(entries: seq<RevisionEntry>, currentNid: int, inChangesView: bool, access: RouteAccess, timeline: Timeline): seq<Item>
    decreases |entries|
  {
    if |entries| == 0 then []
    else
      var last := entries[|entries| - 1];
      Items(entries[..|entries| - 1], currentNid, inChangesView, access, timeline)
      + (if !last.access then [] else [RenderItem(last, currentNid, inChangesView, access, timeline)])
  }

  /** The positions of the accessible revisions, in increasing order. */
  function AccessibleIndices(entries: seq<RevisionEntry>): seq<nat>
    decreases |entries|
  {
    if |entries| == 0 then []
    else
      AccessibleIndices(entries[..|entries| - 1])
      + (if !entries[|entries| - 1].access then [] else [|entries| - 1])
  }

  predicate StrictlyIncreasing(xs: seq<nat>)
  {
    forall i, j :: 0 <= i < j < |xs| ==> xs[i] < xs[j]
  }

  /** The accessible positions all lie within the listing. */
  lemma {:induction false} AccessibleIndicesInRange(entries: seq<RevisionEntry>)
    ensures forall k :: 0 <= k < |AccessibleIndices(entries)| ==> AccessibleIndices(entries)[k] < |entries|
    decreases |entries|
  {
    if |entries| > 0 {
      AccessibleIndicesInRange(entries[..|entries| - 1]);
    }
  }

  /** The accessible positions are listed in increasing order. */
  lemma {:induction false} AccessibleIndicesIncreasing(entries: seq<RevisionEntry>)
    ensures StrictlyIncreasing(AccessibleIndices(entries))
    decreases |entries|
  {
    if |entries| > 0 {
      var n := |entries| - 1;
      var init := entries[..n];
      AccessibleIndicesIncreasing(init);
      AccessibleIndicesInRange(init);
      var prev := AccessibleIndices(init);
      if entries[n].access {
        var idx := prev + [n];
        assert AccessibleIndices(entries) == idx;
        forall i, j | 0 <= i < j < |idx| ensures idx[i] < idx[j] {
          if j < |prev| { assert idx[i] == prev[i] && idx[j] == prev[j]; }
          else { assert idx[i] == prev[i] < n == idx[j]; }
        }
      } else {
        assert AccessibleIndices(entries) == prev;
      }
    }
  }

  /** A position is accessible exactly when its revision may be viewed. */
  lemma {:induction false} AccessibleIndicesMembers(entries: seq<RevisionEntry>)
    ensures forall i :: 0 <= i < |entries| ==> (i in AccessibleIndices(entries) <==> entries[i].access)
    decreases |entries|
  {
    if |entries| > 0 {
      var n := |entries| - 1;
      var init := entries[..n];
      AccessibleIndicesMembers(init);
      AccessibleIndicesInRange(init);
      var prev := AccessibleIndices(init);
      assert AccessibleIndices(entries) == prev + (if entries[n].access then [n] else []);
      assert n !in prev;
      forall i | 0 <= i < n ensures init[i] == entries[i] { }
    }
  }

  /** The accessible positions are increasing, in range, and are exactly the
      positions whose revision the user may view. */
  lemma AccessibleIndicesExact(entries: seq<RevisionEntry>)
    ensures StrictlyIncreasing(AccessibleIndices(entries))
    ensures forall k :: 0 <= k < |AccessibleIndices(entries)| ==> AccessibleIndices(entries)[k] < |entries|
    ensures forall i :: 0 <= i < |entries| ==> (i in AccessibleIndices(entries) <==> entries[i].access)
  {
    AccessibleIndicesIncreasing(entries);
    AccessibleIndicesInRange(entries);
    AccessibleIndicesMembers(entries);
  }

  /** The rendered items are exactly the accessible revisions, in listing
      order, one item per revision. */
  lemma {:induction false} ItemsFollowAccessibleRevisions(entries: seq<RevisionEntry>, currentNid: int, inChangesView: bool, access: RouteAccess, timeline: Timeline)
    ensures var items := Items(entries, currentNid, inChangesView, access, timeline);
      var idx := AccessibleIndices(entries);
      && |items| == |idx|
      && forall k :: 0 <= k < |items| ==>
           idx[k] < |entries| && items[k] == RenderItem(entries[idx[k]], currentNid, inChangesView, access, timeline)
    decreases |entries|
  {
    if |entries| > 0 {
      var n := |entries| - 1;
      var init := entries[..n];
      ItemsFollowAccessibleRevisions(init, currentNid, inChangesView, access, timeline);
      AccessibleIndicesInRange(init);
      var prevItems := Items(init, currentNid, inChangesView, access, timeline);
      var prevIdx := AccessibleIndices(init);
      var items := Items(entries, currentNid, inChangesView, access, timeline);
      var idx := AccessibleIndices(entries);
      if entries[n].access {
        assert items == prevItems + [RenderItem(entries[n], currentNid, inChangesView, access, timeline)];
        assert idx == prevIdx + [n];
      } else {
        assert items == prevItems;
        assert idx == prevIdx;
      }
      forall k | 0 <= k < |prevItems|
        ensures idx[k] < |entries| && items[k] == RenderItem(entries[idx[k]], currentNid, inChangesView, access, timeline)
      {
        assert items[k] == prevItems[k] && idx[k] == prevIdx[k];
        assert init[prevIdx[k]] == entries[prevIdx[k]];
      }
    }
  }

  /** No revision the user cannot view leaves a trace in the list: every item
      is the rendering of an accessible revision. */
  lemma InaccessibleRevisionsOmitted(entries: seq<RevisionEntry>, currentNid: int, inChangesView: bool, access: RouteAccess, timeline: Timeline)
    ensures forall item :: item in Items(entries, currentNid, inChangesView, access, timeline) ==>
      exists i :: (0 <= i < |entries| && entries[i].access
        && item == RenderItem(entries[i], currentNid, inChangesView, access, timeline))
    ensures |Items(entries, currentNid, inChangesView, access, timeline)| <= |entries|
  {
    var items := Items(entries, currentNid, inChangesView, access, timeline);
    var idx := AccessibleIndices(entries);
    ItemsFollowAccessibleRevisions(entries, currentNid, inChangesView, access, timeline);
    AccessibleIndicesExact(entries);
    forall item | item in items
      ensures exists i :: (0 <= i < |entries| && entries[i].access
        && item == RenderItem(entries[i], currentNid, inChangesView, access, timeline))
    {
      var k :| 0 <= k < |items| && items[k] == item;
      assert idx[k] in idx;
    }
    IncreasingBound(idx, |entries|);
  }

  /** A strictly increasing sequence of positions below `n` has at most `n` elements. */
  lemma {:induction false} IncreasingBound(xs: seq<nat>, n: nat)
    requires StrictlyIncreasing(xs)
    requires forall k :: 0 <= k < |xs| ==> xs[k] < n
    ensures |xs| <= n
    decreases n
  {
    if |xs| > 0 {
      var init := xs[..|xs| - 1];
      assert forall k :: 0 <= k < |init| ==> init[k] < xs[|xs| - 1] < n;
      IncreasingBound(init, n - 1);
    }
  }

  /** The build loop: visit the revisions in order, skip the inaccessible
      ones and append an item for each of the others. */
  method BuildItems(entries: seq<RevisionEntry>, currentNid: int, inChangesView: bool, access: RouteAccess, timeline: Timeline)
    returns (items: seq<Item>)
    ensures items == Items(entries, currentNid, inChangesView, access, timeline)
    ensures forall k :: 0 <= k < |items| ==> |items[k].classes| >= 1 && items[k].classes[0] == ListItemClass
  {
    items := [];
    var i := 0;
    while i < |entries|
      invariant 0 <= i <= |entries|
      invariant items == Items(entries[..i], currentNid, inChangesView, access, timeline)
      invariant forall k :: 0 <= k < |items| ==> |items[k].classes| >= 1 && items[k].classes[0] == ListItemClass
    {
      assert entries[..i + 1][..i] == entries[..i];
      if entries[i].access == false {
        i := i + 1;
        continue;
      }
      items := items + [RenderItem(entries[i], currentNid, inChangesView, access, timeline)];
      i := i + 1;
    }
    assert entries[..i] == entries;
  }

  /** The changes-view toggle. */
  function ChangesToggle(inChangesView: bool, currentNid: int, access: RouteAccess): (toggle: Option<ActionLink>)
    ensures inChangesView ==> toggle.Some? && toggle.value.title == ExitChangesTitle
                              && toggle.value.url == RouteUrl(CanonicalRoute, currentNid)
    ensures !inChangesView ==> (toggle.Some? <==> CheckNamedRoute(access, ChangesRoute, currentNid))
    ensures !inChangesView && toggle.Some? ==>
      toggle.value.title == ViewChangesTitle && toggle.value.url == RouteUrl(ChangesRoute, currentNid)
  {
    if inChangesView then
      Some(ActionLink(RouteUrl(CanonicalRoute, currentNid), ExitChangesTitle, ExitChangesHint))
    else if CheckNamedRoute(access, ChangesRoute, currentNid) then
      Some(ActionLink(RouteUrl(ChangesRoute, currentNid), ViewChangesTitle, ViewChangesHint))
    else
      None
  }

  /** Following the toggle always switches view: into the changes view from
      any other route, back out of it from the changes view, and always for
      the current node. */
  lemma ToggleSwitchesView(route: RouteMatch, access: RouteAccess)
    requires route.node.Some?
    requires ChangesToggle(InChangesView(route), route.node.value.nid, access).Some?
    ensures var url := ChangesToggle(InChangesView(route), route.node.value.nid, access).value.url;
      && url.nid == route.node.value.nid
      && (InChangesView(RouteMatch(url.route, route.node)) <==> !InChangesView(route))
  {
  }

  /** The "Build changes" link. */
  function BuildLink(currentNid: int, access: RouteAccess): (link: Option<ActionLink>)
    ensures link.Some? <==> CheckNamedRoute(access, ChangesBuildRoute, currentNid)
    ensures link.Some? ==> link.value.url == RouteUrl(ChangesBuildRoute, currentNid) && link.value.title == BuildChangesTitle
  {
    if CheckNamedRoute(access, ChangesBuildRoute, currentNid) then
      Some(ActionLink(RouteUrl(ChangesBuildRoute, currentNid), BuildChangesTitle, BuildChangesHint))
    else
      None
  }

  /** `build()`: nothing without a wiki node; otherwise the revision list, the
      toggle and the build link. */
  method Build(route: RouteMatch, access: RouteAccess, timeline: Timeline) returns (r: RevisionHistory)
    ensures r.NoOutput? <==> route.node.None?
    ensures route.node.Some? ==>
      var node := route.node.value;
      var entries := WikiNodeRevisions(route, access);
      && r.items == Items(entries, node.nid, InChangesView(route), access, timeline)
      && r.toggle == ChangesToggle(InChangesView(route), node.nid, access)
      && r.buildLink == BuildLink(node.nid, access)
  {
    if route.node.None? {
      return NoOutput;
    }
    var node := route.node.value;
    var entries := WikiNodeRevisions(route, access);
    var items := BuildItems(entries, node.nid, InChangesView(route), access, timeline);
    r := RevisionList(items, ChangesToggle(InChangesView(route), node.nid, access), BuildLink(node.nid, access));
  }

  /** The revision whose nid is the current node's is never rendered as a
      link, whatever the access results; every other rendered revision is. */
  lemma CurrentRevisionNeverLinked(route: RouteMatch, access: RouteAccess, timeline: Timeline)
    requires route.node.Some?
    ensures var node := route.node.value;
      var entries := WikiNodeRevisions(route, access);
      var items := Items(entries, node.nid, InChangesView(route), access, timeline);
      var idx := AccessibleIndices(entries);
      && |items| == |idx|
      && forall k :: 0 <= k < |items| ==>
           idx[k] < |node.revisions|
           && (items[k].link.None? <==> node.revisions[idx[k]].nid == node.nid)
  {
    var node := route.node.value;
    var entries := WikiNodeRevisions(route, access);
    ItemsFollowAccessibleRevisions(entries, node.nid, InChangesView(route), access, timeline);
  }

  /** Three revisions where the user may not view the second render as the
      first and the third, in that order. */
  lemma MiddleRevisionHidden(a: RevisionEntry, b: RevisionEntry, c: RevisionEntry, currentNid: int, inChangesView: bool, access: RouteAccess, timeline: Timeline)
    requires a.access && !b.access && c.access
    ensures Items([a, b, c], currentNid, inChangesView, access, timeline)
      == [RenderItem(a, currentNid, inChangesView, access, timeline), RenderItem(c, currentNid, inChangesView, access, timeline)]
  {
    var ra := RenderItem(a, currentNid, inChangesView, access, timeline);
    var rc := RenderItem(c, currentNid, inChangesView, access, timeline);
    assert [a][..0] == [];
    assert Items([a], currentNid, inChangesView, access, timeline) == [ra];
    assert [a, b][..1] == [a];
    assert Items([a, b], currentNid, inChangesView, access, timeline) == [ra];
    assert [a, b, c][..2] == [a, b];
  }

  /** `getCacheContexts()`. */
  function CacheContexts(base: set<string>): (contexts: set<string>)
    ensures base <= contexts
    ensures {WikiNodeContext, RouteContext, UserPermissionsContext, NodeGrantsViewContext} <= contexts
    ensures forall c :: c in contexts ==> c in base || c in {WikiNodeContext, RouteContext, UserPermissionsContext, NodeGrantsViewContext}
  {
    MergeContexts(base, {WikiNodeContext, RouteContext, UserPermissionsContext, NodeGrantsViewContext})
  }

  /** Adding the block's contexts a second time changes nothing. */
  lemma CacheContextsIdempotent(base: set<string>)
    ensures CacheContexts(CacheContexts(base)) == CacheContexts(base)
  {
  }

  /** The nids of the access-annotated revisions, in order. */
  function Nids(entries: seq<RevisionEntry>): (nids: seq<int>)
    ensures |nids| == |entries|
    ensures forall i :: 0 <= i < |entries| ==> nids[i] == entries[i].nid
  {
    seq(|entries|, i requires 0 <= i < |entries| => entries[i].nid)
  }

  /** The node tags of a list of nids. */
  function NodeTags(nids: seq<int>): set<string>
  {
    set n | n in nids :: NodeTag(n)
  }

  /** Appending a nid adds exactly its node tag. */
  lemma NodeTagsAppend(nids: seq<int>, n: int)
    ensures NodeTags(nids + [n]) == NodeTags(nids) + {NodeTag(n)}
  {
  }

  /** `getCacheTags()`: the sentinel, then a node tag per revision, merged
      into the inherited tags. */
  method CacheTags(base: set<string>, route: RouteMatch, access: RouteAccess) returns (tags: set<string>)
    ensures base <= tags
    ensures PermissionsByTermTag in tags
    // Every revision contributes its tag, whether or not the user may view it.
    ensures route.node.Some? ==>
      forall i :: 0 <= i < |route.node.value.revisions| ==> NodeTag(route.node.value.revisions[i].nid) in tags
    ensures forall t :: t in tags ==>
      || t in base
      || t == PermissionsByTermTag
      || (route.node.Some? &&
          exists i :: 0 <= i < |route.node.value.revisions| && t == NodeTag(route.node.value.revisions[i].nid))
    ensures route.node.None? ==> tags == base + {PermissionsByTermTag}
  {
    var entries := WikiNodeRevisions(route, access);
    var own := CollectTags(Nids(entries));
    tags := MergeTags(base, own);
  }

  /** The tag loop: the sentinel, then the node tag of each revision in turn. */
  method CollectTags(nids: seq<int>) returns (own: set<string>)
    ensures own == {PermissionsByTermTag} + NodeTags(nids)
  {
    own := {PermissionsByTermTag};
    var i := 0;
    while i < |nids|
      invariant 0 <= i <= |nids|
      invariant own == {PermissionsByTermTag} + NodeTags(nids[..i])
    {
      assert nids[..i + 1] == nids[..i] + [nids[i]];
      NodeTagsAppend(nids[..i], nids[i]);
      own := own + {NodeTag(nids[i])};
      i := i + 1;
    }
    assert nids[..i] == nids;
  }

  /** The cache tags do not depend on which revisions the user may view. */
  method CacheTagsIgnoreAccess(base: set<string>, route: RouteMatch, a1: RouteAccess, a2: RouteAccess)
    returns (t1: set<string>, t2: set<string>)
    ensures t1 == t2
    ensures route.node.Some? ==>
      forall i :: 0 <= i < |route.node.value.revisions| ==> NodeTag(route.node.value.revisions[i].nid) in t1
  {
    t1 := CacheTags(base, route, a1);
    t2 := CacheTags(base, route, a2);
  }

  /** The block's whole cache metadata: permanent, with the contexts and tags above. */
  method Cacheability(base: CacheDescriptor, route: RouteMatch, access: RouteAccess) returns (d: CacheDescriptor)
    ensures d.maxAge == Permanent
    ensures d.contexts == CacheContexts(base.contexts)
    ensures base.tags + {PermissionsByTermTag} <= d.tags
  {
    var tags := CacheTags(base.tags, route, access);
    d := CacheDescriptor(CacheContexts(base.contexts), tags, Permanent);
  }
}
