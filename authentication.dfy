/**
 * The browser sign-in flow (the authorization-code grant of RFC 6749,
 * section 4.1): the authorization request URL the app opens, the code it
 * takes from the callback URL, and the lifecycle of the pending promise
 * resolver and browser view.
 */
module Authentication {
  import opened Wrappers
  import opened Text

  /** A URL query item; the value may be missing. */
  datatype QueryItem = QueryItem(name: string, value: Option<string>)

  /** `URLComponents`, reduced to the parts the flow reads or writes. */
  datatype URLComponents = URLComponents(
    scheme: string,
    host: string,
    port: Option<int>,
    path: string,
    queryItems: Option<seq<QueryItem>>)

  /** The redirect URI registered for a URL handler scheme. */
  function RedirectURI(urlHandler: string): (uri: string)
    ensures HasPrefix(uri, urlHandler) && uri[|urlHandler|..] == "://auth-callback"
  {
    urlHandler + "://auth-callback"
  }

  /** The redirect URI names its handler: different handlers give different redirect URIs. */
  lemma RedirectURIInjective(a: string, b: string)
    requires RedirectURI(a) == RedirectURI(b)
    ensures a == b
  {
    assert |a| == |b|;
    assert a == RedirectURI(a)[..|a|];
  }

  /** The client ID: the dev and beta handlers have their own, every other handler the release one. */
  function ClientID(urlHandler: string): (id: string)
    ensures urlHandler == "homeassistant-dev" ==> id == "https://home-assistant.io/iOS/dev-auth"
    ensures urlHandler == "homeassistant-beta" ==> id == "https://home-assistant.io/iOS/beta-auth"
    ensures urlHandler != "homeassistant-dev" && urlHandler != "homeassistant-beta" ==> id == "https://home-assistant.io/iOS"
  {
    if urlHandler == "homeassistant-dev" then "https://home-assistant.io/iOS/dev-auth"
    else if urlHandler == "homeassistant-beta" then "https://home-assistant.io/iOS/beta-auth"
    else "https://home-assistant.io/iOS"
  }

  /** The authorization request: the base URL with its path replaced and the three query items. */
  function AuthorizeComponents(base: URLComponents, urlHandler: string): (c: URLComponents)
    ensures c.scheme == base.scheme && c.host == base.host && c.port == base.port
    ensures c.path == "/auth/authorize"
    ensures c.queryItems.Some? && |c.queryItems.value| == 3
    ensures c.queryItems.value[0] == QueryItem("response_type", Some("code"))
    ensures c.queryItems.value[1] == QueryItem("client_id", Some(ClientID(urlHandler)))
    ensures c.queryItems.value[2] == QueryItem("redirect_uri", Some(RedirectURI(urlHandler)))
  {
    base.(path := "/auth/authorize",
          queryItems := Some([QueryItem("response_type", Some("code")),
                              QueryItem("client_id", Some(ClientID(urlHandler))),
                              QueryItem("redirect_uri", Some(RedirectURI(urlHandler)))]))
  }

  /** The index of the first query item with the given name. */
  function FirstNamed(items: seq<QueryItem>, name: string): (r: Option<nat>)
    ensures r.Some? ==>
      r.value < |items| && items[r.value].name == name
      && forall j :: 0 <= j < r.value ==> items[j].name != name
    ensures r.None? ==> forall j :: 0 <= j < |items| ==> items[j].name != name
  {
    if items == [] then None
    else if items[0].name == name then Some(0)
    else
      var rest := FirstNamed(items[1..], name);
      if rest.Some? then Some(rest.value + 1) else None
  }

  /** The code of the callback: the value of the first "code" item, if it has one. */
  function CodeFromQuery(items: Option<seq<QueryItem>>): Option<string> {
    if items.None? then None
    else
      var first := FirstNamed(items.value, "code");
      if first.Some? then items.value[first.value].value else None
  }

  /**
   * A code is found exactly when some "code" item carries a value and no
   * earlier item is named "code"; it is that item's value.
   */
  lemma CodeIsFirstCodeItem(items: seq<QueryItem>, code: string)
    ensures CodeFromQuery(Some(items)) == Some(code) <==>
      exists i :: 0 <= i < |items| && items[i] == QueryItem("code", Some(code))
        && forall j :: 0 <= j < i ==> items[j].name != "code"
  {
    var first := FirstNamed(items, "code");
    if exists i :: 0 <= i < |items| && items[i] == QueryItem("code", Some(code))
        && forall j :: 0 <= j < i ==> items[j].name != "code" {
      var i :| 0 <= i < |items| && items[i] == QueryItem("code", Some(code))
        && forall j :: 0 <= j < i ==> items[j].name != "code";
      assert first == Some(i);
    }
  }

  /** The authorization request never carries a code item, so its own query yields no code. */
  lemma AuthorizeQueryHasNoCode(base: URLComponents, urlHandler: string)
    ensures CodeFromQuery(AuthorizeComponents(base, urlHandler).queryItems).None?
  {
  }

  /** `AuthenticationControllerError`, with the error a failed URL conversion throws. */
  datatype AuthError = InvalidURL | UserCancelled | CantFindURLHandler | URLConversionFailed

  /** A call on a promise resolver. */
  datatype Resolution = Fulfilled(resolver: nat, code: string) | Rejected(resolver: nat, error: AuthError)

  class AuthenticationController {
    /** The pending promise's resolver. */
    var promiseResolver: Option<nat>
    /** The browser view showing the authorization page. */
    var authenticationViewController: Option<nat>
    /** Every fulfil or reject, in order. */
    var resolutions: seq<Resolution>
    /** The authorization requests presented, in order. */
    var presented: seq<URLComponents>

    constructor ()
      ensures promiseResolver.None? && authenticationViewController.None?
      ensures resolutions == [] && presented == []
    {
      promiseResolver := None;
      authenticationViewController := None;
      resolutions := [];
      presented := [];
    }

    /**
     * `authenticateWithBrowser`. `urlHandler` is `ENV_URL_HANDLER` when it
     * is a string, `base` the components of the base URL (`None` when they
     * cannot be formed), `converts` whether `asURL` succeeds, and `browser`
     * the new browser view's identity.
     */
    method AuthenticateWithBrowser(resolver: nat, urlHandler: Option<string>, base: Option<URLComponents>,
      converts: bool, browser: nat)
      modifies this
      ensures promiseResolver == Some(resolver)
      ensures urlHandler.None? ==>
        && resolutions == old(resolutions) + [Rejected(resolver, CantFindURLHandler)]
        && presented == old(presented) && authenticationViewController == old(authenticationViewController)
      ensures urlHandler.Some? && base.None? ==>
        && resolutions == old(resolutions) + [Rejected(resolver, InvalidURL)]
        && presented == old(presented) && authenticationViewController == old(authenticationViewController)
      ensures urlHandler.Some? && base.Some? && !converts ==>
        && resolutions == old(resolutions) + [Rejected(resolver, URLConversionFailed)]
        && presented == old(presented) && authenticationViewController == old(authenticationViewController)
      ensures urlHandler.Some? && base.Some? && converts ==>
        && resolutions == old(resolutions)
        && presented == old(presented) + [AuthorizeComponents(base.value, urlHandler.value)]
        && authenticationViewController == Some(browser)
    {
      promiseResolver := Some(resolver);
      if urlHandler.None? {
        resolutions := resolutions + [Rejected(resolver, CantFindURLHandler)];
        return;
      }
      var urlHandlerBaseStr := urlHandler.value;
      var redirectURI := urlHandlerBaseStr + "://auth-callback";
      var clientID := "https://home-assistant.io/iOS";
      if urlHandlerBaseStr == "homeassistant-dev" {
        clientID := "https://home-assistant.io/iOS/dev-auth";
      } else if urlHandlerBaseStr == "homeassistant-beta" {
        clientID := "https://home-assistant.io/iOS/beta-auth";
      }
      if base.None? {
        resolutions := resolutions + [Rejected(resolver, InvalidURL)];
        return;
      }
      var components := base.value.(path := "/auth/authorize");
      components := components.(queryItems := Some([QueryItem("response_type", Some("code")),
        QueryItem("client_id", Some(clientID)), QueryItem("redirect_uri", Some(redirectURI))]));
      if !converts {
        resolutions := resolutions + [Rejected(resolver, URLConversionFailed)];
        return;
      }
      authenticationViewController := Some(browser);
      presented := presented + [components];
    }

    /** `safariViewControllerDidFinish`: a pending resolver is rejected as cancelled and cleared. */
    method SafariViewControllerDidFinish()
      modifies this
      ensures old(promiseResolver).None? ==>
        resolutions == old(resolutions) && authenticationViewController == old(authenticationViewController)
        && promiseResolver.None?
      ensures old(promiseResolver).Some? ==>
        resolutions == old(resolutions) + [Rejected(old(promiseResolver).value, UserCancelled)]
        && promiseResolver.None? && authenticationViewController.None?
      ensures presented == old(presented)
    {
      if promiseResolver.None? {
        return;
      }
      resolutions := resolutions + [Rejected(promiseResolver.value, UserCancelled)];
      CleanUp();
    }

    /**
     * The "AuthCallback" observer. `callback` is the components of the URL in
     * the notification, `None` when there is none or it cannot be parsed, in
     * which case the observer returns before cleaning up.
     */
    method AuthCallback(callback: Option<URLComponents>)
      modifies this
      ensures callback.None? ==>
        resolutions == old(resolutions) && promiseResolver == old(promiseResolver)
        && authenticationViewController == old(authenticationViewController)
      ensures callback.Some? ==>
        && promiseResolver.None? && authenticationViewController.None?
        && resolutions == old(resolutions)
             + (if old(promiseResolver).Some? && CodeFromQuery(callback.value.queryItems).Some?
                then [Fulfilled(old(promiseResolver).value, CodeFromQuery(callback.value.queryItems).value)]
                else [])
      ensures presented == old(presented)
    {
      if callback.None? {
        return;
      }
      var code := CodeFromQuery(callback.value.queryItems);
      if code.Some? && promiseResolver.Some? {
        resolutions := resolutions + [Fulfilled(promiseResolver.value, code.value)];
      }
      CleanUp();
    }

    /** `cleanUp`. */
    method CleanUp()
      modifies this
      ensures authenticationViewController.None? && promiseResolver.None?
      ensures resolutions == old(resolutions) && presented == old(presented)
    {
      authenticationViewController := None;
      promiseResolver := None;
    }
  }
}
