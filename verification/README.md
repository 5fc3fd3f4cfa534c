# Omnipedia block plugins — a Dafny model

This project models the decision logic of the Omnipedia block module for Drupal. It covers the block plugins (page revision history, privacy settings, founder message and its join variant, join link, wiki node warning, current date, header) and the build-alter subscriber that adds date and main-page cache metadata to the site branding block.

Each block's `build()` becomes a pure function or method. It takes the answers of the host services as plain values and returns an abstract output datatype. Each block's `getCacheContexts()`, `getCacheTags()` and `getCacheMaxAge()` are combined into one cache descriptor, where contexts and tags are sets.

Modules:

- `Php`: nullable values, PHP's `empty()` on strings (null, `""` and `"0"` are empty), `isset()`, the decimal string of an `int`, and `Result` for an exception that escapes a call.
- `Cache`: cache descriptors, the tag and context names, and `Cache::mergeContexts`/`mergeTags` as set union.
- `Host`: host services as values. Accounts and permissions, access results, the access manager's `checkNamedRoute` answers, URLs built from user input or a URI (`None` where the factory throws), the path alias manager, and the timeline's `getDateFormatted`.
- One module per source file: `PageRevisionHistory`, `SystemBrandingBlock`, `PrivacySettings`, `FounderMessage`, `FounderMessageJoin`, `Join`, `WikiNodeWarning`, `CurrentDate`, `Header`.

The revision list is the most detailed part. `Items` is the list the build loop produces. `AccessibleIndices` independently names the positions of the revisions the user may view. `ItemsFollowAccessibleRevisions` proves that the list has exactly one item per accessible revision, in listing order. `RenderItem` states the branch rules for a single item.

## Model

| member | source | states |
|---|---|---|
| PageRevisionHistory.Label | src/Plugin/Block/PageRevisionHistory.php:112-122 | the configured label when it is not PHP-empty (so not `"0"`), "Revision history" otherwise; the result is never PHP-empty |
| PageRevisionHistory.WikiNodeRevisions | src/Plugin/Block/PageRevisionHistory.php:142-173 | no wiki node on the route gives no revisions; otherwise one entry per revision, with the same nid, date and published flag, and access exactly when the canonical route is allowed for that nid |
| PageRevisionHistory.RenderItem | src/Plugin/Block/PageRevisionHistory.php:234-325 | the content is the item content below; the classes are exactly the base list-item class, then `--unpublished` for an unpublished revision, then `--current` for the current node, and nothing else; the current node and only it is plain content; any other revision links to its own nid, using the changes route exactly when the changes view is active and changes access is granted, and the canonical route otherwise |
| PageRevisionHistory.ItemContentOrder | src/Plugin/Block/PageRevisionHistory.php:244-284 | an item's content is the date in html and short form, followed, for an unpublished revision only, by the break and then the "(unpublished)" marker, and by nothing else |
| PageRevisionHistory.AccessibleIndicesExact | src/Plugin/Block/PageRevisionHistory.php:227-232 | the positions kept by the loop are strictly increasing, in range, and are exactly the positions of the revisions the user may view |
| PageRevisionHistory.AccessibleIndicesInRange | src/Plugin/Block/PageRevisionHistory.php:227-232 | every kept position lies within the revision listing |
| PageRevisionHistory.AccessibleIndicesIncreasing | src/Plugin/Block/PageRevisionHistory.php:227-232 | the kept positions come in strictly increasing order, as the loop visits them |
| PageRevisionHistory.AccessibleIndicesMembers | src/Plugin/Block/PageRevisionHistory.php:227-232 | a position is kept exactly when the user may view that revision |
| PageRevisionHistory.ItemsFollowAccessibleRevisions | src/Plugin/Block/PageRevisionHistory.php:227-327 | the rendered list has one item per accessible revision, in input order, and item k is the rendering of the k-th accessible revision |
| PageRevisionHistory.InaccessibleRevisionsOmitted | src/Plugin/Block/PageRevisionHistory.php:229-232 | every item renders some accessible revision, so an inaccessible one leaves no placeholder; there are never more items than revisions |
| PageRevisionHistory.BuildItems | src/Plugin/Block/PageRevisionHistory.php:227-329 | the loop (skip when access is false, otherwise append) produces the list characterised above, and every item carries the base list-item class first |
| PageRevisionHistory.MiddleRevisionHidden | src/Plugin/Block/PageRevisionHistory.php:227-232 | with three revisions where the second is inaccessible, the list is the first and the third, in that order |
| PageRevisionHistory.CurrentRevisionNeverLinked | src/Plugin/Block/PageRevisionHistory.php:288-325 | in a built list, an item is unlinked exactly when its revision's nid is the current node's nid, whatever the access results |
| PageRevisionHistory.ChangesToggle | src/Plugin/Block/PageRevisionHistory.php:331-384 | in the changes view, "Exit changes view" links to the current node's canonical route; otherwise "View changes" links to its changes route, present exactly when changes access is granted |
| PageRevisionHistory.ToggleSwitchesView | src/Plugin/Block/PageRevisionHistory.php:331-384 | following the toggle leads out of the changes view when in it and into it otherwise, always for the current node |
| PageRevisionHistory.BuildLink | src/Plugin/Block/PageRevisionHistory.php:386-411 | the "Build changes" link is present exactly when build-route access is granted, and then it targets the current node's build route |
| PageRevisionHistory.Build | src/Plugin/Block/PageRevisionHistory.php:178-413 | output is empty exactly when the route has no wiki node; otherwise it holds the item list for the node's revisions, the toggle and the build link |
| PageRevisionHistory.CacheContexts | src/Plugin/Block/PageRevisionHistory.php:420-433 | the contexts are the inherited ones plus `omnipedia_wiki_node`, `route`, `user.permissions` and `user.node_grants:view`, and nothing else |
| PageRevisionHistory.CacheContextsIdempotent | src/Plugin/Block/PageRevisionHistory.php:420-433 | adding the block's contexts to contexts that already hold them changes nothing |
| PageRevisionHistory.NodeTagsAppend | src/Plugin/Block/PageRevisionHistory.php:464-466 | each loop step adds exactly the visited revision's `node:<nid>` tag |
| PageRevisionHistory.CollectTags | src/Plugin/Block/PageRevisionHistory.php:453-466 | the loop collects the sentinel and exactly the node tags of the nids |
| PageRevisionHistory.CacheTags | src/Plugin/Block/PageRevisionHistory.php:445-470 | the tags hold the inherited tags, the permissions-by-term sentinel and `node:<nid>` for every revision, accessible or not, and nothing else; without a wiki node they are the inherited tags plus the sentinel |
| PageRevisionHistory.CacheTagsIgnoreAccess | src/Plugin/Block/PageRevisionHistory.php:460-466 | the tags are the same whatever the user may access |
| PageRevisionHistory.Cacheability | src/Plugin/Block/PageRevisionHistory.php:420-470 | the block is cached permanently, with the contexts above and at least the inherited tags and the sentinel |
| Cache.NodeTagInjective | src/Plugin/Block/PageRevisionHistory.php:465 | distinct nids give distinct `node:` tags |
| Cache.NodeTag | src/Plugin/Block/PageRevisionHistory.php:465 | a node tag is `node:` followed by the nid's PHP string form |
| Cache.DatesTag | src/Plugin/Block/CurrentDate.php:127 | a date tag is `omnipedia_dates:` followed by the storage date, which can be read back from the tag |
| Php.IntToString | src/Plugin/Block/PageRevisionHistory.php:465 | the PHP string form of an integer starts with `-` exactly when it is negative, and only decimal digits follow |
| Php.IntToStringDigits | src/Plugin/Block/PageRevisionHistory.php:465 | the digits after the sign are the decimal form of the magnitude, and reading them back gives the magnitude |
| Php.NatToString | src/Plugin/Block/PageRevisionHistory.php:465 | the decimal form of a natural is a non-empty digit string ending in the last digit, with no leading zero |
| Php.NatToStringValue | src/Plugin/Block/PageRevisionHistory.php:465 | reading the decimal form back as digits gives the number again |
| Php.IntToStringInjective | src/Plugin/Block/PageRevisionHistory.php:465 | distinct integers concatenate to distinct strings |
| Php.NatToStringInjective | src/Plugin/Block/PageRevisionHistory.php:465 | distinct naturals have distinct decimal forms |
| Cache.MergeContexts | src/EventSubscriber/Block/SystemBrandingBlockDateCacheEventSubscriber.php:68-71 | the merged contexts hold both inputs and nothing else |
| Cache.MergeTags | src/EventSubscriber/Block/SystemBrandingBlockDateCacheEventSubscriber.php:80-83 | the merged tags hold both inputs and nothing else |
| Cache.MergeIdempotent | src/EventSubscriber/Block/SystemBrandingBlockDateCacheEventSubscriber.php:68-83 | merging the same tags, or the same contexts, twice equals merging them once |
| Cache.MergeCommutative | src/EventSubscriber/Block/SystemBrandingBlockDateCacheEventSubscriber.php:68-83 | merges do not depend on argument order |
| SystemBrandingBlock.BlockBuildAlter | src/EventSubscriber/Block/SystemBrandingBlockDateCacheEventSubscriber.php:52-87 | any block other than `system_branding_block` is left unchanged; for the branding block the contexts become the prior ones plus `omnipedia_dates`, `user.permissions` and `user.node_grants:view`, and the content and max-age do not change |
| SystemBrandingBlock.MergeTagListsIsUnion | src/EventSubscriber/Block/SystemBrandingBlockDateCacheEventSubscriber.php:74-85 | merging a sequence of tag lists one at a time is a single union of all of them |
| SystemBrandingBlock.SequentialMergesAreOneUnion | src/EventSubscriber/Block/SystemBrandingBlockDateCacheEventSubscriber.php:74-85 | the two sequential tag merges equal one merge of both lists |
| SystemBrandingBlock.BrandingTags | src/EventSubscriber/Block/SystemBrandingBlockDateCacheEventSubscriber.php:74-85 | the branding block's tags become the prior tags, the `omnipedia_dates:<storage date>` tag and the tags of all main pages |
| SystemBrandingBlock.AlterIdempotent | src/EventSubscriber/Block/SystemBrandingBlockDateCacheEventSubscriber.php:68-85 | applying the alter twice gives the same build as applying it once |
| Php.EmptyCases | src/Plugin/Block/PrivacySettings.php:176-180 | `empty()` on a nullable string holds exactly for null, `""` and `"0"` |
| PrivacySettings.Build | src/Plugin/Block/PrivacySettings.php:157-224 | if the popup link, the more-info title or the withdraw label is empty, there is no output and exactly one error is logged; otherwise nothing is logged and the output is one placeholder link whose span text is the policy title, whose URL is built from the policy link, whose `data-privacy-settings-title` is the withdraw label, with the placeholder and `button-placeholder` classes and the `__content` span class; it throws only when the URL factory rejects the link |
| PrivacySettings.EmptyOutputIffLogged | src/Plugin/Block/PrivacySettings.php:174-193 | the output is empty exactly when an error is logged, and at most one error is logged |
| PrivacySettings.ZeroStringIsEmpty | src/Plugin/Block/PrivacySettings.php:176-180 | a withdraw label of `"0"` counts as empty and suppresses the output |
| PrivacySettings.BlockFormNote | src/Plugin/Block/PrivacySettings.php:117-152 | the form shows the settings link exactly when the user may administer the pop-up, and the no-access note otherwise |
| PrivacySettings.Cacheability | src/Plugin/Block/PrivacySettings.php:229-244 | the tags are the inherited ones plus `config:eu_cookie_compliance.settings`; the contexts are inherited unchanged; max-age is permanent |
| PrivacySettings.CacheabilityIdempotent | src/Plugin/Block/PrivacySettings.php:229-244 | adding the block's metadata a second time changes nothing |
| FounderMessage.Build | src/Plugin/Block/FounderMessage.php:110-140 | output is empty exactly when the route is not a main page; otherwise it uses the `omnipedia_founder_message` theme with the configured body text and format |
| Host.AllowedIf | src/Plugin/Block/Header.php:188-190 | `AccessResult::allowedIf()` allows exactly when the condition holds and adds no cache context |
| Host.AllowedIfHasPermission | src/Plugin/Block/FounderMessage.php:151 | `AccessResult::allowedIfHasPermission()` allows exactly when the account has the permission and varies by `user.permissions` |
| Host.PermissionResultVariesOnlyByPermissions | src/Plugin/Block/CurrentDate.php:101 | two accounts with the same permissions get the same permission-check result, so `user.permissions` is the only context it needs |
| Host.CurrentDateElement | src/Plugin/Block/CurrentDate.php:79-88 | the current-date `<time>` element has the `omnipedia-current-date` class, the html-format date as `datetime` and the long-format date as text |
| FounderMessage.Access | src/Plugin/Block/FounderMessage.php:150-152 | access is allowed exactly when the account has `access content`, and the result varies by `user.permissions` |
| FounderMessage.BlockSubmit | src/Plugin/Block/FounderMessage.php:103-105 | the submitted body is stored as it is and no other key changes |
| FounderMessage.BodyFormField | src/Plugin/Block/FounderMessage.php:72-98 | the body field defaults to the stored text, or `""` when none is set, and carries the stored format |
| FounderMessage.FormRoundTrip | src/Plugin/Block/FounderMessage.php:88-105 | submitting the form's defaults back leaves a configured body unchanged |
| FounderMessage.Cacheability | src/Plugin/Block/FounderMessage.php:157-187 | the contexts add `omnipedia_is_wiki_main_page` and `user.permissions`; the tags add every main page's tags; max-age is permanent |
| FounderMessage.CacheabilityIdempotent | src/Plugin/Block/FounderMessage.php:157-187 | adding the block's metadata a second time changes nothing |
| FounderMessageJoin.BuildUrlObject | src/Plugin/Block/FounderMessageJoin.php:98-114 | user input is tried first, then a URI; the call throws only when both reject the value |
| FounderMessageJoin.Build | src/Plugin/Block/FounderMessageJoin.php:222-261 | empty when the join URL is empty and there is no product; empty whenever the founder message is empty; otherwise the join theme with the founder body, the label unchanged from config, and the join URL built from the configured value if it is non-empty, else the product's URL; it throws only when a configured URL cannot be built |
| FounderMessageJoin.RefinesFounderMessage | src/Plugin/Block/FounderMessageJoin.php:222-261 | the join message renders exactly when the founder message would, a join URL or product is available, and a configured URL can be built; its text and format are then the founder message's |
| FounderMessageJoin.RenderedWhenPossible | src/Plugin/Block/FounderMessageJoin.php:230-259 | on a main page with a product or a buildable join URL, the join message is rendered |
| FounderMessageJoin.BlockValidate | src/Plugin/Block/FounderMessageJoin.php:172-193 | an error is set on `join_url` exactly when the value is non-empty and URL construction throws; an empty value is never an error |
| FounderMessageJoin.BlockSubmit | src/Plugin/Block/FounderMessageJoin.php:198-217 | the body is stored by the parent submit, the label verbatim, and the URL after alias-to-path conversion |
| FounderMessageJoin.BlockForm | src/Plugin/Block/FounderMessageJoin.php:119-167 | the label defaults to the stored one or `""`; the URL defaults to `""` when empty, to the path's alias when the stored URL is internal, to the raw value when external, and the form throws when the stored value cannot be built |
| FounderMessageJoin.InternalUrlRoundTrip | src/Plugin/Block/FounderMessageJoin.php:147-215 | with an alias manager that maps the alias back, saving the form's defaults leaves an internal join URL and the label as they were |
| FounderMessageJoin.ValidationGuardsBuild | src/Plugin/Block/FounderMessageJoin.php:172-261 | after saving a join URL the alias manager keeps as typed, building on a main page throws exactly when validation would have rejected that URL |
| FounderMessageJoin.ValidationGuardsForm | src/Plugin/Block/FounderMessageJoin.php:119-217 | after saving a join URL the alias manager keeps as typed, reopening the form throws exactly when validation would have rejected that URL |
| Join.Build | src/Plugin/Block/Join.php:92-124 | a "Join Omnipedia" link to the product URL, with its container and link classes, appears exactly when a product exists, the user is anonymous and may view the product |
| Join.NoProductNoLink | src/Plugin/Block/Join.php:97-100 | without a base product nothing is shown |
| Join.AuthenticatedNeverSeeLink | src/Plugin/Block/Join.php:102-107 | authenticated users never see the link |
| Join.PermissionSetAloneDoesNotDecide | src/Plugin/Block/Join.php:101-107 | an anonymous and an authenticated account with the same permissions get different outputs for a viewable product |
| Join.CoveredByPermissionsContext | src/Plugin/Block/Join.php:101-134 | accounts the `user.permissions` context does not tell apart get the same output for the same product answer, and the block declares that context |
| Join.Cacheability | src/Plugin/Block/Join.php:129-158 | the contexts add `user.permissions` and `user.node_grants:view`; the tags add the permissions-by-term sentinel; max-age is permanent |
| Join.CacheabilityIdempotent | src/Plugin/Block/Join.php:129-158 | adding the block's metadata a second time changes nothing |
| WikiNodeWarning.Build | src/Plugin/Block/WikiNodeWarning.php:130-168 | empty off wiki node view routes, without a wiki node, without `field_warning`, or when the field has no items; otherwise `status_messages` with one warning per field item, in field order, under the "Warning message" heading |
| WikiNodeWarning.Cacheability | src/Plugin/Block/WikiNodeWarning.php:179-205 | the contexts add `omnipedia_wiki_node`, `user.permissions` and `user.node_grants:view`; the tags add the sentinel; max-age is permanent |
| WikiNodeWarning.BlockContexts | src/Plugin/Block/WikiNodeWarning.php:31-38 | the block is cached by its own contexts plus the `route` context its `node` context brings, and nothing else |
| WikiNodeWarning.BuildInputsCovered | src/Plugin/Block/WikiNodeWarning.php:130-185 | the output reads the route only through whether it is a wiki node view route and reads the wiki node; both are named by a context the block is cached by |
| WikiNodeWarning.CacheabilityIdempotent | src/Plugin/Block/WikiNodeWarning.php:179-205 | adding the block's metadata a second time changes nothing |
| CurrentDate.Build | src/Plugin/Block/CurrentDate.php:75-90 | a single time element whose `datetime` is the current date in html format and whose text is the current date in long format |
| CurrentDate.Access | src/Plugin/Block/CurrentDate.php:100-102 | access is allowed exactly when the account has `access content`, and the result varies by `user.permissions` |
| CurrentDate.Cacheability | src/Plugin/Block/CurrentDate.php:107-129 | the contexts add `omnipedia_dates`; the tags add `omnipedia_dates:` followed by the storage-formatted current date; max-age is permanent |
| CurrentDate.CacheabilityIdempotent | src/Plugin/Block/CurrentDate.php:107-129 | adding the block's metadata a second time changes nothing |
| CurrentDate.TagKeyedByStorageDate | src/Plugin/Block/CurrentDate.php:125-129 | when the inherited tags hold no date tag, two timelines give equal tags exactly when their current storage dates agree |
| Header.SearchForm | src/Plugin/Block/Header.php:153-180 | the form is empty on the wiki search page and when the `wiki_search` view cannot be loaded; otherwise it is the view's exposed form |
| Header.Build | src/Plugin/Block/Header.php:93-141 | the current-date element (the `omnipedia-current-date` class, the html-format `datetime` and the long-format text) and the menu link are always present; the search slot is present exactly when the form is non-empty, with the form's elements and its attributes, or empty attributes when it had none |
| Header.DateMatchesCurrentDateBlock | src/Plugin/Block/Header.php:99-111 | the header's date element is the one the current date block renders |
| Header.NoSearchFormOnSearchPage | src/Plugin/Block/Header.php:155-158 | on the wiki search page the header never carries a search form |
| Header.Access | src/Plugin/Block/Header.php:183-191 | access is allowed exactly when the wiki node access service admits the account, and the result carries no cache context |
| Header.AccessVariesOutsideItsContexts | src/Plugin/Block/Header.php:183-191 | two accounts with the same permissions can get different answers whose results carry the same, empty, contexts |
| Header.Cacheability | src/Plugin/Block/Header.php:196-225 | the contexts add `omnipedia_dates`, `omnipedia_is_wiki_search_page`, `user.permissions` and `user.node_grants:view`; the tags add `omnipedia_dates:<storage date>`; max-age is permanent |
| Header.CacheabilityIdempotent | src/Plugin/Block/Header.php:196-225 | adding the block's metadata a second time changes nothing |

## Left out

- Constructors, `create()` and container wiring are dependency-injection plumbing. The join variant's constructor passes arguments that do not fit the founder message constructor's signature; that is not modelled.
- Host services are not modelled, only their answers, which are inputs. This covers the access manager, the wiki node resolver, the main page route and cache services, the content access product service, `Url::fromRoute`/`fromUserInput`/`fromUri`, the path alias manager, the timeline's date formatting, and `hasPermission`.
- Views loading and exposed-form building in `getSearchForm()` are left out. The rendered exposed form is an input.
- `Attribute` objects, `NestedArray::mergeDeep`, `t()` translation, attached libraries other than the privacy placeholder's, and the exact render-array shape are left out. Outputs are abstract datatypes.
- The internal order and deduplication of `Cache::mergeTags`/`mergeContexts` are not visible, so both are set union. The tag order of the revision block is therefore not modelled.
- `getMachineNameSuggestion()` is left out. Each block's version returns a fixed string and makes no decision.
- The revision listing is taken to give each revision an integer `nid` and a boolean `published`, and the access flag is a boolean. The block compares these with `===`; a listing with string nids would never match the current node, and a `published` of `0` or `null` would count as published. Those inputs are not modelled.
- The `user.permissions` cache context is taken to tell anonymous from authenticated accounts, because the framework hashes an account's roles with their permissions. `PermissionsContextValue` names that assumption; the hash itself is not modelled.
- Access results are modelled by their answer and their cache contexts. Their cache tags and max-age are left out; none of the blocks here adds any.
- The logger call is only a count of error events. Its message and placeholders are not modelled.
- The theme-hook subscribers, the component plugin classes, the privacy-settings script and the build configuration are left out. They are declarative or client-side.
- Config values are modelled as `string|null`. PHP's `empty()` on other types (false, 0, arrays) is not modelled.
- PageRevisionHistory.Cacheability: states the inherited tags and the sentinel as a lower bound. `CacheTags` gives the exact set.
