/**
 The privacy settings block: a placeholder link to the privacy policy that a
 script later turns into a button opening the cookie-consent pop-up. Its
 text and target come from the EU Cookie Compliance settings; when any of
 them is empty the block renders nothing and logs one error.
 */
module PrivacySettings {
  import opened Php
  import opened Host
  import opened Cache

  const ConfigName: string := "eu_cookie_compliance.settings"
  const ConfigTag: string := "config:" + ConfigName
  const PlaceholderBaseClass: string := "omnipedia-privacy-settings-placeholder"
  const PlaceholderContentClass: string := "omnipedia-privacy-settings-placeholder__content"
  const ButtonPlaceholderClass: string := "button-placeholder"
  const Library: string := "omnipedia_block/component.privacy_settings"
  const AdministerPermission: string := "administer eu cookie compliance popup"
  const SettingsRoute: string := "eu_cookie_compliance.settings"

  /** The three values read from the EU Cookie Compliance settings. */
  datatype EuCookieComplianceSettings = EuCookieComplianceSettings(
    popupLink: Option<string>,
    popupMoreInfoButtonMessage: Option<string>,
    withdrawTabButtonLabel: Option<string>)

  /** The placeholder link: a span with the policy title inside a link to the
      policy, carrying the label for the settings button. */
  datatype Placeholder = Placeholder(
    spanText: string,
    spanClasses: seq<string>,
    url: Url,
    classes: seq<string>,
    settingsTitle: string,
    library: string)

  datatype PrivacyOutput = NoOutput | PlaceholderLink(placeholder: Placeholder)

  /** What `build()` renders, and how many errors it logged. */
  datatype PrivacyBuild = PrivacyBuild(output: Result<PrivacyOutput>, errorsLogged: nat)

  predicate SettingsIncomplete(settings: EuCookieComplianceSettings)
  {
    Empty(settings.popupLink) || Empty(settings.popupMoreInfoButtonMessage) || Empty(settings.withdrawTabButtonLabel)
  }

  /** `build()`. The policy URL goes through `Url::fromUserInput()`, whose
      exception on input it rejects is not caught. */
  function Build(settings: EuCookieComplianceSettings, urls: UrlFactory): (r: PrivacyBuild)
    // Any empty value: nothing rendered and exactly one error logged.
    ensures SettingsIncomplete(settings) ==> r == PrivacyBuild(Ok(NoOutput), 1)
    // Otherwise nothing is logged and the output is never empty.
    ensures !SettingsIncomplete(settings) ==> r.errorsLogged == 0 && r.output != Ok(NoOutput)
    ensures !SettingsIncomplete(settings) ==>
      (r.output.Thrown? <==> urls.fromUserInput(settings.popupLink.value).None?)
    ensures r.output.Ok? && r.output.value.PlaceholderLink? ==>
      var p := r.output.value.placeholder;
      && settings.popupMoreInfoButtonMessage == Some(p.spanText)
      && settings.withdrawTabButtonLabel == Some(p.settingsTitle)
      && urls.fromUserInput(settings.popupLink.value) == Some(p.url)
      && p.classes == [PlaceholderBaseClass, ButtonPlaceholderClass]
      && p.spanClasses == [PlaceholderContentClass]
      && p.library == Library
  {
    if SettingsIncomplete(settings) then
      PrivacyBuild(Ok(NoOutput), 1)
    else
      match urls.fromUserInput(settings.popupLink.value)
      case None => PrivacyBuild(Thrown, 0)
      case Some(url) =>
        PrivacyBuild(Ok(PlaceholderLink(Placeholder(
          settings.popupMoreInfoButtonMessage.value,
          [PlaceholderContentClass],
          url,
          [PlaceholderBaseClass, ButtonPlaceholderClass],
          settings.withdrawTabButtonLabel.value,
          Library))), 0)
  }

  /** The output is empty exactly when a value is missing, and an error is
      logged exactly then. */
  lemma EmptyOutputIffLogged(settings: EuCookieComplianceSettings, urls: UrlFactory)
    ensures Build(settings, urls).output == Ok(NoOutput) <==> Build(settings, urls).errorsLogged == 1
    ensures Build(settings, urls).errorsLogged <= 1
  {
  }

  /** "0" counts as empty, as PHP's `empty()` has it. */
  lemma ZeroStringIsEmpty(link: Option<string>, title: Option<string>, urls: UrlFactory)
    ensures Build(EuCookieComplianceSettings(link, title, Some("0")), urls) == PrivacyBuild(Ok(NoOutput), 1)
  {
  }

  /** The note `blockForm()` adds about where the policy is configured. */
  datatype FormNote = SettingsLinkNote(route: string) | NoAccessNote

  /** `blockForm()`: a link to the settings for those who may administer the
      pop-up, an explanation for everyone else. */
  function BlockFormNote(account: Account): (note: FormNote)
    ensures note.SettingsLinkNote? <==> AdministerPermission in account.permissions
    ensures note.SettingsLinkNote? ==> note.route == SettingsRoute
  {
    if HasPermission(account, AdministerPermission) then SettingsLinkNote(SettingsRoute) else NoAccessNote
  }

  /** `getCacheTags()`, `getCacheMaxAge()` and the inherited contexts. */
  function Cacheability(base: CacheDescriptor): (d: CacheDescriptor)
    ensures d.contexts == base.contexts
    ensures d.tags == base.tags + {ConfigTag}
    ensures d.maxAge == Permanent
  {
    CacheDescriptor(base.contexts, MergeTags(base.tags, {ConfigTag}), Permanent)
  }

  /** Merging the block's metadata into metadata that already holds it
      changes nothing. */
  lemma CacheabilityIdempotent(base: CacheDescriptor)
    ensures Cacheability(Cacheability(base)) == Cacheability(base)
  {
  }
}
