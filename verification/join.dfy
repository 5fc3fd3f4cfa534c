/**
 The "Join Omnipedia" block: a link to the base content access product's
 page, shown only to anonymous users who may view that product.
 */
module Join {
  import opened Php
  import opened Host
  import opened Cache

  const JoinTitle: string := "Join Omnipedia"
  const ContainerClass: string := "join-omnipedia"
  const LinkClass: string := "join-omnipedia__link"

  /** The base product: its page and whether the current user may view it. */
  datatype Product = Product(url: Url, viewAccess: bool)

  datatype JoinOutput = NoOutput | JoinLink(containerClasses: seq<string>, title: string, url: Url, linkClasses: seq<string>)

  /** `build()`. */
  function Build(product: Option<Product>, user: Account): (r: JoinOutput)
    ensures r.JoinLink? <==> product.Some? && !user.authenticated && product.value.viewAccess
    ensures r.JoinLink? ==>
      && r.title == JoinTitle
      && r.url == product.value.url
      && r.containerClasses == [ContainerClass]
      && r.linkClasses == [LinkClass]
  {
    match product
    case None => NoOutput
    case Some(p) =>
      if user.authenticated || !p.viewAccess then NoOutput
      else JoinLink([ContainerClass], JoinTitle, p.url, [LinkClass])
  }

  /** Without a product, nothing is shown to anyone. */
  lemma NoProductNoLink(user: Account)
    ensures Build(None, user) == NoOutput
  {
  }

  /** Authenticated users never see the link. */
  lemma AuthenticatedNeverSeeLink(product: Option<Product>, user: Account)
    requires user.authenticated
    ensures Build(product, user) == NoOutput
  {
  }

  /** The permission set alone does not decide the output: with a viewable
      product, an anonymous and an authenticated account with no permissions
      at all get different outputs. */
  lemma PermissionSetAloneDoesNotDecide(p: Product)
    requires p.viewAccess
    ensures var anonymous, member := Account({}, false), Account({}, true);
      && anonymous.permissions == member.permissions
      && Build(Some(p), anonymous) != Build(Some(p), member)
  {
  }

  /** The `user.permissions` context does cover the user: two accounts it
      does not tell apart get the same output for the same product answer,
      and the block declares that context. */
  lemma CoveredByPermissionsContext(base: CacheDescriptor, product: Option<Product>, u1: Account, u2: Account)
    requires PermissionsContextValue(u1) == PermissionsContextValue(u2)
    ensures Build(product, u1) == Build(product, u2)
    ensures UserPermissionsContext in Cacheability(base).contexts
  {
  }

  /** `getCacheContexts()`, `getCacheTags()` and `getCacheMaxAge()`. */
  function Cacheability(base: CacheDescriptor): (d: CacheDescriptor)
    ensures d.contexts == base.contexts + {UserPermissionsContext, NodeGrantsViewContext}
    ensures d.tags == base.tags + {PermissionsByTermTag}
    ensures d.maxAge == Permanent
  {
    CacheDescriptor(
      MergeContexts(base.contexts, {UserPermissionsContext, NodeGrantsViewContext}),
      MergeTags(base.tags, {PermissionsByTermTag}),
      Permanent)
  }

  /** Merging the block's metadata into metadata that already holds it
      changes nothing. */
  lemma CacheabilityIdempotent(base: CacheDescriptor)
    ensures Cacheability(Cacheability(base)) == Cacheability(base)
  {
  }
}
