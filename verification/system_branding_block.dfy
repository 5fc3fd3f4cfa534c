/**
 The build-alter subscriber for the site branding block: it adds the date,
 permission and node-grant contexts and the current-date and main-page tags
 to that one block's cache metadata, and leaves every other block alone.
 */
module SystemBrandingBlock {
  import opened Host
  import opened Cache

  const BrandingBlockId: string := "system_branding_block"

  /** A block's build: its content (left abstract) and its `#cache` metadata. */
  datatype BlockBuild<C> = BlockBuild(content: C, cache: CacheDescriptor)

  /** The contexts the branding block must vary by. */
  const BrandingContexts: set<string> := {DatesContext, UserPermissionsContext, NodeGrantsViewContext}

  /** Merge each tag list in turn into `tags`, as the subscriber's loop does. */
  function MergeTagLists(tags: set<string>, lists: seq<set<string>>): set<string>
    decreases |lists|
  {
    if |lists| == 0 then tags else MergeTagLists(MergeTags(tags, lists[0]), lists[1..])
  }

  /** Every tag of every list. */
  function AllTags(lists: seq<set<string>>): set<string>
    decreases |lists|
  {
    if |lists| == 0 then {} else lists[0] + AllTags(lists[1..])
  }

  /** Merging the lists one after another is one union of all of them. */
  lemma {:induction false} MergeTagListsIsUnion(tags: set<string>, lists: seq<set<string>>)
    ensures MergeTagLists(tags, lists) == tags + AllTags(lists)
    decreases |lists|
  {
    if |lists| > 0 {
      MergeTagListsIsUnion(MergeTags(tags, lists[0]), lists[1..]);
    }
  }

  /** Two merges in sequence equal a single merge of both lists at once. */
  lemma SequentialMergesAreOneUnion(tags: set<string>, first: set<string>, second: set<string>)
    ensures MergeTagLists(tags, [first, second]) == MergeTags(tags, first + second)
  {
    var lists := [first, second];
    MergeTagListsIsUnion(tags, lists);
    assert AllTags(lists[1..][1..]) == {} by { assert lists[1..][1..] == []; }
    assert AllTags(lists) == first + second;
  }

  /** The two tag lists the subscriber merges: the current-date tag, then the
      tags of every main page. */
  function BrandingTagLists(timeline: Timeline, mainPagesTags: set<string>): seq<set<string>>
  {
    [{DatesTag(GetDateFormatted(timeline, CurrentDateKey, Storage))}, mainPagesTags]
  }

  /** `blockBuildAlter()`. */
  function BlockBuildAlter<C>(blockId: string, build: BlockBuild<C>, timeline: Timeline, mainPagesTags: set<string>): (r: BlockBuild<C>)
    ensures blockId != BrandingBlockId ==> r == build
    // Only the contexts and tags change.
    ensures r.content == build.content && r.cache.maxAge == build.cache.maxAge
    ensures blockId == BrandingBlockId ==>
      r.cache.contexts == build.cache.contexts + {DatesContext, UserPermissionsContext, NodeGrantsViewContext}
  {
    if blockId != BrandingBlockId then build
    else
      var contexts := MergeContexts(build.cache.contexts, BrandingContexts);
      var tags := MergeTagLists(build.cache.tags, BrandingTagLists(timeline, mainPagesTags));
      BlockBuild(build.content, CacheDescriptor(contexts, tags, build.cache.maxAge))
  }

  /** The branding block's tags gain the current-date tag and the tags of all
      main pages, not only the current one, and nothing else. */
  lemma BrandingTags<C>(build: BlockBuild<C>, timeline: Timeline, mainPagesTags: set<string>)
    ensures BlockBuildAlter(BrandingBlockId, build, timeline, mainPagesTags).cache.tags
      == build.cache.tags + {"omnipedia_dates:" + timeline.formatted(CurrentDateKey, Storage)} + mainPagesTags
  {
    var lists := BrandingTagLists(timeline, mainPagesTags);
    MergeTagListsIsUnion(build.cache.tags, lists);
    assert AllTags(lists[1..][1..]) == {} by { assert lists[1..][1..] == []; }
    assert AllTags(lists) == lists[0] + lists[1];
  }

  /** Doing the alter twice gives what doing it once gives. */
  lemma AlterIdempotent<C>(blockId: string, build: BlockBuild<C>, timeline: Timeline, mainPagesTags: set<string>)
    ensures var once := BlockBuildAlter(blockId, build, timeline, mainPagesTags);
      BlockBuildAlter(blockId, once, timeline, mainPagesTags) == once
  {
    if blockId == BrandingBlockId {
      var once := BlockBuildAlter(blockId, build, timeline, mainPagesTags);
      BrandingTags(build, timeline, mainPagesTags);
      BrandingTags(once, timeline, mainPagesTags);
    }
  }
}
