/**
 * How the sign-in dialog classifies a URL the web view is about to load
 * (DialogWebViewClient.shouldOverrideUrlLoading): a first-match-wins prefix
 * test over the shop, the mobile shop and the redirect URL.
 */
module Navigation {
  import opened Wrappers

  datatype Decision =
    | Inline                          // still on the shop: let the web view load it
    | TokenRedirect(accessToken: string)  // redirect URL reached with an access_token parameter
    | ErrorRedirect                   // redirect URL reached without one
    | External(url: string)           // anything else: hand it to an external viewer

  /** The three comparison prefixes the constructor derives. */
  datatype Prefixes = Prefixes(shopUrl: string, shopUrlMobile: string, redirectUrl: string)

  /** Java's startsWith. */
  predicate StartsWith(url: string, prefix: string)
  {
    prefix <= url
  }

  predicate OnShop(p: Prefixes, url: string)
  {
    StartsWith(url, p.shopUrl) || StartsWith(url, p.shopUrlMobile)
  }

  /**
   * accessTokenOf stands for parsing the URL's parameters and looking up
   * access_token; None is Java's null. Only a null token counts as missing.
   */
  function Classify(p: Prefixes, accessTokenOf: string -> Option<string>, url: string): (d: Decision)
    ensures d.Inline? <==> OnShop(p, url)
    ensures d.TokenRedirect? <==>
      !OnShop(p, url) && StartsWith(url, p.redirectUrl) && accessTokenOf(url).Some?
    ensures d.TokenRedirect? ==> d.accessToken == accessTokenOf(url).value
    ensures d.ErrorRedirect? <==>
      !OnShop(p, url) && StartsWith(url, p.redirectUrl) && accessTokenOf(url).None?
    ensures d.External? <==> !OnShop(p, url) && !StartsWith(url, p.redirectUrl)
    ensures d.External? ==> d.url == url
  {
    if StartsWith(url, p.shopUrl) || StartsWith(url, p.shopUrlMobile) then
      Inline
    else if StartsWith(url, p.redirectUrl) then
      match accessTokenOf(url)
      case Some(token) => TokenRedirect(token)
      case None => ErrorRedirect
    else
      External(url)
  }

  /** The shop test runs first, so a URL under both a shop prefix and the redirect prefix loads inline. */
  lemma ShopWinsOverRedirect(p: Prefixes, accessTokenOf: string -> Option<string>, url: string)
    requires StartsWith(url, p.shopUrl) || StartsWith(url, p.shopUrlMobile)
    requires StartsWith(url, p.redirectUrl)
    ensures Classify(p, accessTokenOf, url) == Inline
  {
  }

  /** An empty access_token is still a token: the check is for presence only. */
  lemma EmptyTokenIsSuccess(p: Prefixes, accessTokenOf: string -> Option<string>, url: string)
    requires !OnShop(p, url) && StartsWith(url, p.redirectUrl)
    requires accessTokenOf(url) == Some("")
    ensures Classify(p, accessTokenOf, url) == TokenRedirect("")
  {
  }
}
