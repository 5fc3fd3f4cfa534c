/**
 The founder message block: a configured formatted text shown only on a
 main page, to users who may access content.
 */
module FounderMessage {
  import opened Php
  import opened Host
  import opened Cache

  const Theme: string := "omnipedia_founder_message"
  const AccessContentPermission: string := "access content"

  /** A `text_format` value: the text and its text format, either unset. */
  datatype FormattedText = FormattedText(value: Option<string>, format: Option<string>)

  /** The block configuration keys this block and its join variant keep. */
  datatype Configuration = Configuration(body: FormattedText, joinLabel: Option<string>, joinUrl: Option<string>)

  /** The founder message output: nothing, or the themed formatted text. */
  datatype FounderOutput = NoMessage | Message(theme: string, text: Option<string>, format: Option<string>)

  /** `build()`. */
  function Build(isMainPage: bool, config: Configuration): (r: FounderOutput)
    ensures r.NoMessage? <==> !isMainPage
    ensures r.Message? ==> r.theme == Theme && r.text == config.body.value && r.format == config.body.format
  {
    if !isMainPage then NoMessage else Message(Theme, config.body.value, config.body.format)
  }

  /** `access()`: allowed to accounts that may access content, neutral otherwise. */
  function Access(account: Account): (r: AccessResult)
    ensures r.allowed <==> AccessContentPermission in account.permissions
    // Cached per set of permissions, the only thing the answer depends on.
    ensures r.contexts == {UserPermissionsContext}
  {
    AllowedIfHasPermission(account, AccessContentPermission)
  }

  /** `blockSubmit()`: the submitted body is stored as it is, and nothing
      else in the configuration changes. */
  function BlockSubmit(config: Configuration, body: FormattedText): (r: Configuration)
    ensures r.body == body
    ensures r.joinLabel == config.joinLabel && r.joinUrl == config.joinUrl
  {
    config.(body := body)
  }

  /** The body field of `blockForm()`: its default text and, if one is
      configured, its text format. */
  datatype BodyField = BodyField(defaultValue: string, format: Option<string>)

  /** `blockForm()`: the stored body, or an empty default when none is set. */
  function BodyFormField(config: Configuration): (f: BodyField)
    ensures config.body.value.Some? ==> f.defaultValue == config.body.value.value
    ensures config.body.value.None? ==> f.defaultValue == ""
    ensures f.format == config.body.format
  {
    BodyField(
      match config.body.value case Some(v) => v case None => "",
      config.body.format)
  }

  /** Saving the form's own defaults back leaves a configured body unchanged. */
  lemma FormRoundTrip(config: Configuration)
    requires config.body.value.Some?
    ensures var f := BodyFormField(config);
      BlockSubmit(config, FormattedText(Some(f.defaultValue), f.format)) == config
  {
  }

  /** `getCacheContexts()`, `getCacheTags()` and `getCacheMaxAge()`: vary by
      whether the route is a main page and by permissions; invalidate with
      any main page, since adding or removing one can change the output. */
  function Cacheability(base: CacheDescriptor, allMainPagesTags: set<string>): (d: CacheDescriptor)
    ensures d.contexts == base.contexts + {IsWikiMainPageContext, UserPermissionsContext}
    ensures d.tags == base.tags + allMainPagesTags
    ensures d.maxAge == Permanent
  {
    CacheDescriptor(
      MergeContexts(base.contexts, {IsWikiMainPageContext, UserPermissionsContext}),
      MergeTags(base.tags, allMainPagesTags),
      Permanent)
  }

  /** Merging the block's metadata into metadata that already holds it
      changes nothing. */
  lemma CacheabilityIdempotent(base: CacheDescriptor, allMainPagesTags: set<string>)
    ensures Cacheability(Cacheability(base, allMainPagesTags), allMainPagesTags) == Cacheability(base, allMainPagesTags)
  {
  }
}
