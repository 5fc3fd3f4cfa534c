/**
 Cache metadata carried by every block: the contexts a rendering varies by,
 the tags that invalidate it, and its maximum age. The framework's
 `Cache::mergeContexts` and `Cache::mergeTags` deduplicate their inputs, so
 both are modelled as set union.
 */
module Cache {
  import opened Php

  /** `Cache::PERMANENT` or a bounded time-to-live in seconds. */
  datatype MaxAge = Permanent | Seconds(seconds: nat)

  datatype CacheDescriptor = CacheDescriptor(contexts: set<string>, tags: set<string>, maxAge: MaxAge)

  /** Sentinel tag invalidated whenever the Permissions by Term access cache is. */
  const PermissionsByTermTag: string := "permissions_by_term:access_result_cache"

  const DatesContext: string := "omnipedia_dates"
  const UserPermissionsContext: string := "user.permissions"
  const NodeGrantsViewContext: string := "user.node_grants:view"
  const WikiNodeContext: string := "omnipedia_wiki_node"
  const RouteContext: string := "route"
  const IsWikiMainPageContext: string := "omnipedia_is_wiki_main_page"
  const IsWikiSearchPageContext: string := "omnipedia_is_wiki_search_page"

  /** Whether a tag is a current-date tag. */
  predicate IsDatesTag(t: string)
  {
    |t| >= |"omnipedia_dates:"| && t[..|"omnipedia_dates:"|] == "omnipedia_dates:"
  }

  /** The tag that invalidates content rendered for one storage-formatted date. */
  function DatesTag(storageDate: string): (t: string)
    ensures |t| == |"omnipedia_dates:"| + |storageDate|
    ensures t[..|"omnipedia_dates:"|] == "omnipedia_dates:"
    ensures t[|"omnipedia_dates:"|..] == storageDate
    ensures IsDatesTag(t)
  {
    "omnipedia_dates:" + storageDate
  }

  /** The tag of one node entity. */
  function NodeTag(nid: int): (t: string)
    ensures |t| > 5 && t[..5] == "node:" && t[5..] == IntToString(nid)
  {
    "node:" + IntToString(nid)
  }

  /** Distinct nodes have distinct tags. */
  lemma NodeTagInjective(a: int, b: int)
    requires NodeTag(a) == NodeTag(b)
    ensures a == b
  {
    IntToStringInjective(a, b);
  }

  /** `Cache::mergeContexts`: every context of either side, and nothing else. */
  function MergeContexts(a: set<string>, b: set<string>): (r: set<string>)
    ensures a <= r && b <= r
    ensures forall c :: c in r ==> c in a || c in b
  {
    a + b
  }

  /** `Cache::mergeTags`: every tag of either side, and nothing else. */
  function MergeTags(a: set<string>, b: set<string>): (r: set<string>)
    ensures a <= r && b <= r
    ensures forall t :: t in r ==> t in a || t in b
  {
    a + b
  }

  /** Merging the same tags or contexts twice is the same as merging them once. */
  lemma MergeIdempotent(a: set<string>, b: set<string>)
    ensures MergeTags(MergeTags(a, b), b) == MergeTags(a, b)
    ensures MergeContexts(MergeContexts(a, b), b) == MergeContexts(a, b)
  {
  }

  /** The order of a merge does not matter. */
  lemma MergeCommutative(a: set<string>, b: set<string>)
    ensures MergeTags(a, b) == MergeTags(b, a)
    ensures MergeContexts(a, b) == MergeContexts(b, a)
  {
  }
}
