/**
 The host services the blocks consult, reduced to plain values: the current
 user, access results, the route access checker, URL construction, the path
 alias manager and the timeline's date formatting. Their implementations are
 not part of this model; each appears only through the answers it gives.
 */
module Host {
  import opened Php
  import opened Cache

  /** The account a block is rendered for. */
  datatype Account = Account(permissions: set<string>, authenticated: bool)

  /** What the `user.permissions` cache context tells apart. The framework
      hashes an account's roles together with their permissions, and every
      account has exactly one of the anonymous and authenticated roles, so
      the context separates anonymous from authenticated accounts even when
      their permission sets agree. The hash itself is left abstract. */
  function PermissionsContextValue(account: Account): (bool, set<string>)
  {
    (account.authenticated, account.permissions)
  }

  predicate HasPermission(account: Account, permission: string)
  {
    permission in account.permissions
  }

  /** An access result as returned by a block's `access()`: whether it
      allows (the blocks here never forbid, they only allow or stay neutral)
      and the cache contexts the result varies by. */
  datatype AccessResult = AccessResult(allowed: bool, contexts: set<string>)

  /** `AccessResult::allowedIf()`: the condition's answer, with no cache
      contexts of its own. */
  function AllowedIf(condition: bool): (r: AccessResult)
    ensures r.allowed <==> condition
    ensures r.contexts == {}
  {
    AccessResult(condition, {})
  }

  /** `AccessResult::allowedIfHasPermission()`: the permission check, cached
      per set of permissions. */
  function AllowedIfHasPermission(account: Account, permission: string): (r: AccessResult)
    ensures r.allowed <==> permission in account.permissions
    ensures r.contexts == {UserPermissionsContext}
  {
    AllowedIf(HasPermission(account, permission)).(contexts := {UserPermissionsContext})
  }

  /** The `user.permissions` context is enough for a permission check: two
      accounts with the same permissions get the same result. */
  lemma PermissionResultVariesOnlyByPermissions(a1: Account, a2: Account, permission: string)
    requires a1.permissions == a2.permissions
    ensures AllowedIfHasPermission(a1, permission) == AllowedIfHasPermission(a2, permission)
  {
  }

  /** The access manager's answers to `checkNamedRoute(route, ['node' => nid])`:
      the pairs for which access is granted. */
  datatype RouteAccess = RouteAccess(granted: set<(string, int)>)

  predicate CheckNamedRoute(access: RouteAccess, route: string, nid: int)
  {
    (route, nid) in access.granted
  }

  /** A `Url` built from a route with a `node` parameter. */
  datatype RouteUrl = RouteUrl(route: string, nid: int)

  /** A `Url` built from user input or a URI. */
  datatype Url = Url(target: string, external: bool)

  /** `Url::fromUserInput()` and `Url::fromUri()`: `None` stands for the
      invalid-argument exception each throws on input it rejects. */
  datatype UrlFactory = UrlFactory(fromUserInput: string -> Option<Url>, fromUri: string -> Option<Url>)

  /** The path alias manager's two lookups. */
  datatype AliasManager = AliasManager(pathByAlias: string -> string, aliasByPath: string -> string)

  /** The formats the timeline service renders a date in. */
  datatype DateFormat = Html | Short | Long | Storage

  /** The timeline service: `getDateFormatted(date, format)`, where the date
      "current" is the current wiki date. */
  datatype Timeline = Timeline(formatted: (string, DateFormat) -> string)

  const CurrentDateKey: string := "current"

  function GetDateFormatted(timeline: Timeline, date: string, format: DateFormat): string
  {
    timeline.formatted(date, format)
  }

  /** A `<time>` element: its classes, its `datetime` attribute and its text. */
  datatype TimeElement = TimeElement(classes: seq<string>, datetime: string, text: string)

  /** The current-date element shared by the header and the current-date block. */
  const CurrentDateClass: string := "omnipedia-current-date"

  function CurrentDateElement(timeline: Timeline): (e: TimeElement)
    ensures e.classes == [CurrentDateClass]
    ensures e.datetime == timeline.formatted(CurrentDateKey, Html)
    ensures e.text == timeline.formatted(CurrentDateKey, Long)
  {
    TimeElement(
      [CurrentDateClass],
      GetDateFormatted(timeline, CurrentDateKey, Html),
      GetDateFormatted(timeline, CurrentDateKey, Long))
  }
}
