/**
 The join variant of the founder message: the founder message plus a join
 link, whose URL is the configured one if set and the base product's page
 otherwise. The configured URL may be an internal path (stored as the
 system path, shown as its alias) or an external URL.
 */
module FounderMessageJoin {
  import opened Php
  import opened Host
  import FounderMessage

  const Theme: string := "omnipedia_founder_message_join"
  const JoinUrlField: string := "join_url"

  /** The base content access product; only its canonical URL matters here. */
  datatype Product = Product(url: Url)

  /** `buildUrlObject()`: user input first; if that throws, a URI; if that
      throws too, the exception escapes. */
  function BuildUrlObject(pathOrUrl: string, urls: UrlFactory): (r: Result<Url>)
    ensures urls.fromUserInput(pathOrUrl).Some? ==> r == Ok(urls.fromUserInput(pathOrUrl).value)
    ensures urls.fromUserInput(pathOrUrl).None? && urls.fromUri(pathOrUrl).Some? ==> r == Ok(urls.fromUri(pathOrUrl).value)
    ensures r.Thrown? <==> urls.fromUserInput(pathOrUrl).None? && urls.fromUri(pathOrUrl).None?
  {
    match urls.fromUserInput(pathOrUrl)
    case Some(url) => Ok(url)
    case None =>
      match urls.fromUri(pathOrUrl)
      case Some(url) => Ok(url)
      case None => Thrown
  }

  datatype JoinOutput =
    | NoJoinMessage
    | JoinMessage(theme: string, text: Option<string>, format: Option<string>, joinUrl: Url, joinLabel: Option<string>)

  /** `build()`. */
  function Build(config: FounderMessage.Configuration, product: Option<Product>, isMainPage: bool, urls: UrlFactory): (r: Result<JoinOutput>)
    // No join URL and no product: nothing.
    ensures Empty(config.joinUrl) && product.None? ==> r == Ok(NoJoinMessage)
    // Nothing whenever the founder message itself renders nothing.
    ensures FounderMessage.Build(isMainPage, config).NoMessage? ==> r == Ok(NoJoinMessage)
    ensures r.Ok? && r.value.JoinMessage? ==>
      var m := r.value;
      && isMainPage
      && m.theme == Theme
      && m.text == config.body.value && m.format == config.body.format
      && m.joinLabel == config.joinLabel
      // A configured join URL takes precedence over the product's page.
      && (!Empty(config.joinUrl) ==> BuildUrlObject(config.joinUrl.value, urls) == Ok(m.joinUrl))
      && (Empty(config.joinUrl) ==> product.Some? && m.joinUrl == product.value.url)
    // Only a configured URL that no factory accepts makes it throw.
    ensures r.Thrown? <==>
      isMainPage && !Empty(config.joinUrl) && BuildUrlObject(config.joinUrl.value, urls).Thrown?
  {
    if Empty(config.joinUrl) && product.None? then Ok(NoJoinMessage)
    else
      match FounderMessage.Build(isMainPage, config)
      case NoMessage => Ok(NoJoinMessage)
      case Message(_, text, format) =>
        if !Empty(config.joinUrl) then
          match BuildUrlObject(config.joinUrl.value, urls)
          case Thrown => Thrown
          case Ok(url) => Ok(JoinMessage(Theme, text, format, url, config.joinLabel))
        else
          Ok(JoinMessage(Theme, text, format, product.value.url, config.joinLabel))
  }

  /** On a main page, with a product or a usable join URL, the join message is
      always rendered. */
  lemma RenderedWhenPossible(config: FounderMessage.Configuration, product: Option<Product>, urls: UrlFactory)
    requires !Empty(config.joinUrl) || product.Some?
    requires !Empty(config.joinUrl) ==> BuildUrlObject(config.joinUrl.value, urls).Ok?
    ensures Build(config, product, true, urls).Ok?
    ensures Build(config, product, true, urls).value.JoinMessage?
  {
  }

  /** A form error, set on one field. */
  datatype FormError = FormError(field: string, value: string)

  /** `blockValidate()`: an error on the join URL only when it is non-empty
      and cannot be turned into a URL; an empty value is never an error. */
  function BlockValidate(joinUrl: string, urls: UrlFactory): (r: Option<FormError>)
    ensures r.Some? <==> !EmptyString(joinUrl) && BuildUrlObject(joinUrl, urls).Thrown?
    ensures r.Some? ==> r.value == FormError(JoinUrlField, joinUrl)
  {
    if !EmptyString(joinUrl) && BuildUrlObject(joinUrl, urls).Thrown? then Some(FormError(JoinUrlField, joinUrl)) else None
  }

  /** The values the block form submits. */
  datatype JoinFormValues = JoinFormValues(body: FounderMessage.FormattedText, joinLabel: string, joinUrl: string)

  /** `blockSubmit()`: the founder message's submit stores the body; then the
      label is stored as typed and the URL as the system path for it. */
  function BlockSubmit(config: FounderMessage.Configuration, values: JoinFormValues, aliases: AliasManager): (r: FounderMessage.Configuration)
    ensures r.body == values.body
    ensures r.joinLabel == Some(values.joinLabel)
    ensures r.joinUrl == Some(aliases.pathByAlias(values.joinUrl))
  {
    var parent := FounderMessage.BlockSubmit(config, values.body);
    parent.(joinLabel := Some(values.joinLabel), joinUrl := Some(aliases.pathByAlias(values.joinUrl)))
  }

  /** The join fields `blockForm()` adds, after the founder message's body field. */
  datatype JoinForm = JoinForm(body: FounderMessage.BodyField, joinLabelDefault: string, joinUrlDefault: string)

  /** `blockForm()`: the stored label, and the stored URL shown as its alias
      when internal and as it is when external. */
  function BlockForm(config: FounderMessage.Configuration, urls: UrlFactory, aliases: AliasManager): (r: Result<JoinForm>)
    ensures r.Ok? ==> r.value.body == FounderMessage.BodyFormField(config)
    ensures r.Ok? ==> r.value.joinLabelDefault == (if config.joinLabel.Some? then config.joinLabel.value else "")
    ensures Empty(config.joinUrl) ==> r.Ok? && r.value.joinUrlDefault == ""
    ensures !Empty(config.joinUrl) ==>
      match BuildUrlObject(config.joinUrl.value, urls)
      case Thrown => r.Thrown?
      case Ok(url) =>
        && r.Ok?
        && (!url.external ==> r.value.joinUrlDefault == aliases.aliasByPath(config.joinUrl.value))
        && (url.external ==> r.value.joinUrlDefault == config.joinUrl.value)
  {
    var body := FounderMessage.BodyFormField(config);
    var joinLabel := if IsSet(config.joinLabel) then config.joinLabel.value else "";
    if Empty(config.joinUrl) then Ok(JoinForm(body, joinLabel, ""))
    else
      match BuildUrlObject(config.joinUrl.value, urls)
      case Thrown => Thrown
      case Ok(url) =>
        if !url.external then Ok(JoinForm(body, joinLabel, aliases.aliasByPath(config.joinUrl.value)))
        else Ok(JoinForm(body, joinLabel, config.joinUrl.value))
  }

  /** Submitting the form with an internal URL's alias and an alias manager
      that maps that alias back stores the original path again. */
  lemma InternalUrlRoundTrip(config: FounderMessage.Configuration, urls: UrlFactory, aliases: AliasManager)
    requires !Empty(config.joinUrl) && config.joinLabel.Some?
    requires BuildUrlObject(config.joinUrl.value, urls).Ok? && !BuildUrlObject(config.joinUrl.value, urls).value.external
    requires aliases.pathByAlias(aliases.aliasByPath(config.joinUrl.value)) == config.joinUrl.value
    ensures var form := BlockForm(config, urls, aliases).value;
      var values := JoinFormValues(config.body, form.joinLabelDefault, form.joinUrlDefault);
      BlockSubmit(config, values, aliases) == config
  {
  }

  /** Validation guards the build: once a join URL is saved that the alias
      manager stores as typed, building the block on a main page throws
      exactly when validation would have rejected that URL. */
  lemma ValidationGuardsBuild(config: FounderMessage.Configuration, values: JoinFormValues, product: Option<Product>, urls: UrlFactory, aliases: AliasManager)
    requires aliases.pathByAlias(values.joinUrl) == values.joinUrl
    ensures Build(BlockSubmit(config, values, aliases), product, true, urls).Thrown?
      <==> BlockValidate(values.joinUrl, urls).Some?
  {
  }

  /** The same for the form: reopening it after saving a join URL that the
      alias manager stores as typed throws exactly when validation would have
      rejected that URL. */
  lemma ValidationGuardsForm(config: FounderMessage.Configuration, values: JoinFormValues, urls: UrlFactory, aliases: AliasManager)
    requires aliases.pathByAlias(values.joinUrl) == values.joinUrl
    ensures BlockForm(BlockSubmit(config, values, aliases), urls, aliases).Thrown?
      <==> BlockValidate(values.joinUrl, urls).Some?
  {
  }

  /** The join variant refines the founder message: it renders exactly when
      the founder message would, a join URL or product is available, and a
      configured URL can be built; its text and format are then the founder
      message's. */
  lemma RefinesFounderMessage(config: FounderMessage.Configuration, product: Option<Product>, isMainPage: bool, urls: UrlFactory)
    ensures var r := Build(config, product, isMainPage, urls);
      (r.Ok? && r.value.JoinMessage?)
      <==> (&& FounderMessage.Build(isMainPage, config).Message?
            && (!Empty(config.joinUrl) || product.Some?)
            && (!Empty(config.joinUrl) ==> BuildUrlObject(config.joinUrl.value, urls).Ok?))
    ensures var r := Build(config, product, isMainPage, urls);
      r.Ok? && r.value.JoinMessage? ==>
        && r.value.text == FounderMessage.Build(isMainPage, config).text
        && r.value.format == FounderMessage.Build(isMainPage, config).format
  {
  }
}
