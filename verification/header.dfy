/**
 The header block: the current date, a menu link and, except on the wiki
 search page, the wiki search view's exposed form.
 */
module Header {
  import opened Php
  import opened Host
  import opened Cache
  import CurrentDate

  const HeaderTheme: string := "omnipedia_header"
  const MenuTitle: string := "Menu"
  const MenuTarget: string := "#menu"

  /** A rendered form: its elements and, if it has any, its attributes. PHP
      treats it as empty when it has neither. */
  datatype FormArray = FormArray(elements: seq<string>, attributes: Option<map<string, string>>)

  predicate EmptyForm(form: FormArray)
  {
    form.elements == [] && form.attributes.None?
  }

  /** The search form slot: the form with its attributes always present. */
  datatype SearchSlot = SearchSlot(elements: seq<string>, attributes: map<string, string>)

  datatype MenuLink = MenuLink(title: string, target: string)

  datatype HeaderOutput = HeaderOutput(theme: string, currentDate: TimeElement, menuLink: MenuLink, searchForm: Option<SearchSlot>)

  /** `getSearchForm()`: nothing on the search page or when the `wiki_search`
      view does not load; otherwise the view's exposed form as it renders. */
  function SearchForm(isSearchPage: bool, exposedForm: Option<FormArray>): (form: FormArray)
    ensures isSearchPage ==> EmptyForm(form)
    ensures exposedForm.None? ==> EmptyForm(form)
    ensures !isSearchPage && exposedForm.Some? ==> form == exposedForm.value
  {
    if isSearchPage then FormArray([], None)
    else match exposedForm
      case None => FormArray([], None)
      case Some(form) => form
  }

  /** `build()`: the date and the menu link always, the search form slot only
      when the form is not empty. */
  function Build(timeline: Timeline, searchForm: FormArray): (r: HeaderOutput)
    ensures r.theme == HeaderTheme
    ensures r.currentDate == CurrentDateElement(timeline)
    ensures r.currentDate.classes == [CurrentDateClass]
    ensures r.currentDate.datetime == timeline.formatted(CurrentDateKey, Html)
    ensures r.currentDate.text == timeline.formatted(CurrentDateKey, Long)
    ensures r.menuLink == MenuLink(MenuTitle, MenuTarget)
    ensures r.searchForm.Some? <==> !EmptyForm(searchForm)
    ensures r.searchForm.Some? ==> r.searchForm.value.elements == searchForm.elements
    ensures r.searchForm.Some? && searchForm.attributes.Some? ==> r.searchForm.value.attributes == searchForm.attributes.value
    ensures r.searchForm.Some? && searchForm.attributes.None? ==> r.searchForm.value.attributes == map[]
  {
    var slot :=
      if EmptyForm(searchForm) then None
      else Some(SearchSlot(searchForm.elements, match searchForm.attributes case Some(a) => a case None => map[]));
    HeaderOutput(HeaderTheme, CurrentDateElement(timeline), MenuLink(MenuTitle, MenuTarget), slot)
  }

  /** The header's date is the element the current date block renders. */
  lemma DateMatchesCurrentDateBlock(timeline: Timeline, searchForm: FormArray)
    ensures Build(timeline, searchForm).currentDate == CurrentDate.Build(timeline)
  {
  }

  /** On the wiki search page the header never carries a search form. */
  lemma NoSearchFormOnSearchPage(timeline: Timeline, exposedForm: Option<FormArray>)
    ensures Build(timeline, SearchForm(true, exposedForm)).searchForm.None?
  {
  }

  /** `access()`: allowed exactly when the wiki node access service says the
      account can access some wiki node. The answer depends on the account,
      but `allowedIf()` attaches no cache context to it. */
  function Access(account: Account, canAccessAnyWikiNode: Account -> bool): (r: AccessResult)
    ensures r.allowed <==> canAccessAnyWikiNode(account)
    ensures r.contexts == {}
  {
    AllowedIf(canAccessAnyWikiNode(account))
  }

  /** Nothing in the access result says what it varies by: with a wiki node
      access service that admits only authenticated users, two accounts with
      the same permissions get different answers whose results carry the
      same, empty, contexts. */
  lemma AccessVariesOutsideItsContexts()
    ensures var service := (a: Account) => a.authenticated;
      var anonymous, member := Account({}, false), Account({}, true);
      && anonymous.permissions == member.permissions
      && Access(anonymous, service).allowed != Access(member, service).allowed
      && Access(anonymous, service).contexts == Access(member, service).contexts == {}
  {
  }

  /** `getCacheContexts()`, `getCacheTags()` and `getCacheMaxAge()`. */
  function Cacheability(base: CacheDescriptor, timeline: Timeline): (d: CacheDescriptor)
    ensures d.contexts == base.contexts + {DatesContext, IsWikiSearchPageContext, UserPermissionsContext, NodeGrantsViewContext}
    ensures d.tags == base.tags + {"omnipedia_dates:" + timeline.formatted(CurrentDateKey, Storage)}
    ensures d.maxAge == Permanent
  {
    CacheDescriptor(
      MergeContexts(base.contexts, {DatesContext, IsWikiSearchPageContext, UserPermissionsContext, NodeGrantsViewContext}),
      MergeTags(base.tags, {DatesTag(GetDateFormatted(timeline, CurrentDateKey, Storage))}),
      Permanent)
  }

  /** Merging the block's metadata into metadata that already holds it
      changes nothing. */
  lemma CacheabilityIdempotent(base: CacheDescriptor, timeline: Timeline)
    ensures Cacheability(Cacheability(base, timeline), timeline) == Cacheability(base, timeline)
  {
  }
}
