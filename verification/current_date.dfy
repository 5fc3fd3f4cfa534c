/**
 The current date block: the current wiki date in a `<time>` element, cached
 per date.
 */
module CurrentDate {
  import opened Host
  import opened Cache

  const AccessContentPermission: string := "access content"

  /** `build()`: the `datetime` attribute in HTML format, the text in long format. */
  function Build(timeline: Timeline): (e: TimeElement)
    ensures e.datetime == timeline.formatted(CurrentDateKey, Html)
    ensures e.text == timeline.formatted(CurrentDateKey, Long)
    ensures e.classes == [CurrentDateClass]
  {
    CurrentDateElement(timeline)
  }

  /** `access()`. */
  function Access(account: Account): (r: AccessResult)
    ensures r.allowed <==> AccessContentPermission in account.permissions
    // Cached per set of permissions, the only thing the answer depends on.
    ensures r.contexts == {UserPermissionsContext}
  {
    AllowedIfHasPermission(account, AccessContentPermission)
  }

  /** `getCacheContexts()`, `getCacheTags()` and `getCacheMaxAge()`: the tag
      is keyed by the storage-formatted current date. */
  function Cacheability(base: CacheDescriptor, timeline: Timeline): (d: CacheDescriptor)
    ensures d.contexts == base.contexts + {DatesContext}
    ensures d.tags == base.tags + {"omnipedia_dates:" + timeline.formatted(CurrentDateKey, Storage)}
    ensures d.maxAge == Permanent
  {
    CacheDescriptor(
      MergeContexts(base.contexts, {DatesContext}),
      MergeTags(base.tags, {DatesTag(GetDateFormatted(timeline, CurrentDateKey, Storage))}),
      Permanent)
  }

  /** Two timelines that agree on the current storage date give the block the
      same tags, and ones that disagree give different tags: each date is
      cached and invalidated separately. */
  lemma TagKeyedByStorageDate(base: CacheDescriptor, t1: Timeline, t2: Timeline)
    requires forall t :: t in base.tags ==> !IsDatesTag(t)
    ensures Cacheability(base, t1).tags == Cacheability(base, t2).tags
      <==> t1.formatted(CurrentDateKey, Storage) == t2.formatted(CurrentDateKey, Storage)
  {
    var s1, s2 := t1.formatted(CurrentDateKey, Storage), t2.formatted(CurrentDateKey, Storage);
    if Cacheability(base, t1).tags == Cacheability(base, t2).tags {
      var tag1 := DatesTag(s1);
      assert tag1 in Cacheability(base, t2).tags;
      assert tag1 !in base.tags;
      assert tag1 == DatesTag(s2);
      assert s1 == tag1[|"omnipedia_dates:"|..];
    }
  }

  /** Merging the block's metadata into metadata that already holds it
      changes nothing. */
  lemma CacheabilityIdempotent(base: CacheDescriptor, timeline: Timeline)
    ensures Cacheability(Cacheability(base, timeline), timeline) == Cacheability(base, timeline)
  {
  }
}
