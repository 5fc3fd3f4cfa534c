/**
 The wiki node warning block: the items of the current wiki node's warning
 field, shown as warning status messages on wiki node view routes.
 */
module WikiNodeWarning {
  import opened Php
  import opened Cache

  const StatusMessagesTheme: string := "status_messages"
  const WarningHeading: string := "Warning message"

  /** The wiki node of the block's `node` context: `warningField` is `None`
      when the node has no `field_warning`, and otherwise holds the viewed
      field items in field order. */
  datatype WarningNode<W> = WarningNode(warningField: Option<seq<W>>)

  datatype WarningOutput<W> = NoOutput | StatusMessages(theme: string, warnings: seq<W>, heading: string)

  /** `build()`: the viewed field items become the warning messages. */
  function Build<W>(routeName: string, wikiNodeViewRoutes: set<string>, node: Option<WarningNode<W>>): (r: WarningOutput<W>)
    ensures routeName !in wikiNodeViewRoutes ==> r == NoOutput
    ensures node.None? || node.value.warningField.None? ==> r == NoOutput
    ensures r.NoOutput? <==>
      routeName !in wikiNodeViewRoutes || node.None? || node.value.warningField.None? || |node.value.warningField.value| == 0
    // One warning per field item, in field order.
    ensures r.StatusMessages? ==>
      && r.warnings == node.value.warningField.value
      && r.theme == StatusMessagesTheme
      && r.heading == WarningHeading
  {
    if routeName !in wikiNodeViewRoutes then NoOutput
    else if node.None? || node.value.warningField.None? then NoOutput
    else
      var messages := node.value.warningField.value;
      if |messages| == 0 then NoOutput else StatusMessages(StatusMessagesTheme, messages, WarningHeading)
  }

  /** `getCacheContexts()`, `getCacheTags()` and `getCacheMaxAge()`. */
  function Cacheability(base: CacheDescriptor): (d: CacheDescriptor)
    ensures d.contexts == base.contexts + {WikiNodeContext, UserPermissionsContext, NodeGrantsViewContext}
    ensures d.tags == base.tags + {PermissionsByTermTag}
    ensures d.maxAge == Permanent
  {
    CacheDescriptor(
      MergeContexts(base.contexts, {WikiNodeContext, UserPermissionsContext, NodeGrantsViewContext}),
      MergeTags(base.tags, {PermissionsByTermTag}),
      Permanent)
  }

  /** Merging the block's metadata into metadata that already holds it
      changes nothing. */
  lemma CacheabilityIdempotent(base: CacheDescriptor)
    ensures Cacheability(Cacheability(base)) == Cacheability(base)
  {
  }

  /** The contexts the block is cached by: its own, plus the `route` context
      that its `node` context definition brings. */
  function BlockContexts(base: CacheDescriptor): (contexts: set<string>)
    ensures contexts == Cacheability(base).contexts + {RouteContext}
    ensures forall c :: c in contexts ==> c in base.contexts || c in {WikiNodeContext, UserPermissionsContext, NodeGrantsViewContext, RouteContext}
  {
    MergeContexts(Cacheability(base).contexts, {RouteContext})
  }

  /** Every input the output reads is named by a context: the route only
      through whether it is a wiki node view route (covered by `route`), and
      the wiki node (covered by `omnipedia_wiki_node`). */
  lemma BuildInputsCovered<W>(base: CacheDescriptor, r1: string, r2: string, wikiNodeViewRoutes: set<string>, node: Option<WarningNode<W>>)
    requires (r1 in wikiNodeViewRoutes) == (r2 in wikiNodeViewRoutes)
    ensures Build(r1, wikiNodeViewRoutes, node) == Build(r2, wikiNodeViewRoutes, node)
    ensures RouteContext in BlockContexts(base) && WikiNodeContext in BlockContexts(base)
  {
  }
}
