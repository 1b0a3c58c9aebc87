/** The sign-in page: starts the provider login, and on the way back checks
    the returned `state` against the one it stored before it hands the `code`
    to the `figma-callback` function, at most once per page. */
module AuthPage {
  import opened Outcomes
  import opened Urlencoded
  import FigmaAuthUrl

  const InvalidState := "Invalid state parameter. Please try again."
  const SignInFailed := "Could not complete sign in. Please try again."
  const ConnectFailed := "Could not connect to Figma. Please try again."

  /** Where the page sends the browser: a route of the app or an outside URL. */
  datatype Navigation = Route(path: string) | External(url: string)

  /** What the callback effect does with the current URL parameters. */
  datatype Decision = Ignore | Reject | Accept(code: string)

  /** What invoking `figma-callback` resolves to: an error (with its message,
      if it has one) or the body's magic link and user name and email. */
  datatype CallbackReply =
    | CallbackError(message: Option<string>)
    | CallbackData(magicLink: Option<string>, userName: Option<string>, userEmail: Option<string>)

  /** What invoking `figma-auth-url` resolves to. */
  datatype AuthUrlReply = AuthUrlError(message: Option<string>) | AuthUrlData(url: Option<string>)

  /** The callback effect's test: both `code` and `state` are present and
      non-empty and no callback has started; then the state must equal the
      stored one. */
  function CallbackDecision(params: Params, storedState: Option<string>, processing: bool): (d: Decision)
    ensures d.Accept? <==> Truthy(Get(params, "code")) && Truthy(Get(params, "state")) && !processing
                           && Get(params, "state") == storedState
    ensures d.Accept? ==> Get(params, "code") == Some(d.code)
    ensures d == Reject <==> Truthy(Get(params, "code")) && Truthy(Get(params, "state")) && !processing
                             && Get(params, "state") != storedState
    ensures processing ==> d == Ignore
    ensures storedState.None? ==> !d.Accept?
  {
    var code := Get(params, "code");
    var state := Get(params, "state");
    if Truthy(code) && Truthy(state) && !processing then
      if state != storedState then Reject else Accept(code.value)
    else Ignore
  }

  /** A value interpolated into a template literal: `undefined` when absent. */
  function Shown(s: Option<string>): string {
    if s.Some? then s.value else "undefined"
  }

  class AuthPage {
    /** `window.location.origin`. */
    const origin: string
    var searchParams: Params
    /** `sessionStorage["figma_oauth_state"]`. */
    var storedState: Option<string>
    /** `processingRef.current`. */
    var processing: bool
    var isProcessingCallback: bool
    var isAuthenticating: bool
    /** The `(code, redirect_uri)` bodies sent to `figma-callback`. */
    var callbacks: seq<(string, string)>
    /** The `(redirect_uri, state)` bodies sent to `figma-auth-url`. */
    var authUrlRequests: seq<(string, string)>
    var navigations: seq<Navigation>
    /** The descriptions of the toasts shown. */
    var toasts: seq<string>

    /** The callback has been invoked at most once, and exactly when the
        guard is set; the spinner is shown only while the guard is set. */
    ghost predicate Valid()
      reads this
    {
      && |callbacks| <= 1
      && (processing <==> |callbacks| == 1)
      && (isProcessingCallback ==> processing)
    }

    function RedirectUri(): string
      reads this
    {
      origin + "/auth"
    }

    /** The page as mounted, with the URL's parameters and whatever state the
        session storage holds. */
    constructor (origin: string, searchParams: Params, storedState: Option<string>)
      ensures Valid()
      ensures this.origin == origin && this.searchParams == searchParams && this.storedState == storedState
      ensures !processing && !isProcessingCallback && !isAuthenticating
      ensures callbacks == [] && authUrlRequests == [] && navigations == [] && toasts == []
    {
      this.origin := origin;
      this.searchParams := searchParams;
      this.storedState := storedState;
      processing := false;
      isProcessingCallback := false;
      isAuthenticating := false;
      callbacks := [];
      authUrlRequests := [];
      navigations := [];
      toasts := [];
    }

    /** The effect on `searchParams`. A mismatch clears the parameters and
        shows an error, nothing else; a match sets the guard, clears the
        parameters and the stored state, and invokes the callback once. */
    method CallbackEffect()
      requires Valid()
      modifies this
      ensures Valid()
      ensures var d := CallbackDecision(old(searchParams), old(storedState), old(processing));
              && (d == Ignore ==>
                    && searchParams == old(searchParams) && storedState == old(storedState)
                    && processing == old(processing) && isProcessingCallback == old(isProcessingCallback)
                    && callbacks == old(callbacks) && toasts == old(toasts))
              && (d == Reject ==>
                    && searchParams == [] && storedState == old(storedState)
                    && !processing && isProcessingCallback == old(isProcessingCallback)
                    && callbacks == old(callbacks) && toasts == old(toasts) + [InvalidState])
              && (d.Accept? ==>
                    && searchParams == [] && storedState.None?
                    && processing && isProcessingCallback
                    && callbacks == [(d.code, RedirectUri())] && toasts == old(toasts))
      ensures isAuthenticating == old(isAuthenticating) && authUrlRequests == old(authUrlRequests)
      ensures navigations == old(navigations)
    {
      var code := Get(searchParams, "code");
      var state := Get(searchParams, "state");
      if Truthy(code) && Truthy(state) && !processing {
        if state != storedState {
          toasts := toasts + [InvalidState];
          searchParams := [];
          return;
        }
        processing := true;
        isProcessingCallback := true;
        searchParams := [];
        storedState := None;
        callbacks := callbacks + [(code.value, origin + "/auth")];
      }
    }

    /** The rest of `handleOAuthCallback`, once the invocation resolves: an
        error clears the spinner (never the guard); a magic link is followed;
        otherwise the user is welcomed and sent home. */
    method CallbackSettled(reply: CallbackReply)
      requires Valid()
      modifies this
      ensures Valid()
      ensures processing == old(processing) && callbacks == old(callbacks)
      ensures searchParams == old(searchParams) && storedState == old(storedState)
      ensures isAuthenticating == old(isAuthenticating) && authUrlRequests == old(authUrlRequests)
      ensures reply.CallbackError? ==>
                && !isProcessingCallback && navigations == old(navigations)
                && toasts == old(toasts) + [OrElse(reply.message, SignInFailed)]
      ensures reply.CallbackData? && Truthy(reply.magicLink) ==>
                && isProcessingCallback == old(isProcessingCallback)
                && navigations == old(navigations) + [External(reply.magicLink.value)] && toasts == old(toasts)
      ensures reply.CallbackData? && !Truthy(reply.magicLink) ==>
                && isProcessingCallback == old(isProcessingCallback)
                && navigations == old(navigations) + [Route("/")]
                && toasts == old(toasts) + ["Signed in as " + Shown(Or(reply.userName, reply.userEmail))]
    {
      match reply {
        case CallbackError(m) =>
          toasts := toasts + [OrElse(m, SignInFailed)];
          isProcessingCallback := false;
        case CallbackData(link, name, email) =>
          if Truthy(link) {
            navigations := navigations + [External(link.value)];
          } else {
            toasts := toasts + ["Signed in as " + Shown(Or(name, email))];
            navigations := navigations + [Route("/")];
          }
      }
    }

    /** `startFigmaAuth`: `uuid` is what `crypto.randomUUID()` returns. The
        state is stored before the URL builder is asked, with that same state. */
    method StartFigmaAuth(uuid: string, reply: AuthUrlReply)
      requires Valid()
      modifies this
      ensures Valid()
      ensures storedState == Some(uuid)
      ensures authUrlRequests == old(authUrlRequests) + [(RedirectUri(), uuid)]
      ensures processing == old(processing) && isProcessingCallback == old(isProcessingCallback)
      ensures callbacks == old(callbacks) && searchParams == old(searchParams)
      ensures reply.AuthUrlError? ==>
                && !isAuthenticating && navigations == old(navigations)
                && toasts == old(toasts) + [OrElse(reply.message, ConnectFailed)]
      ensures reply.AuthUrlData? ==>
                && isAuthenticating && toasts == old(toasts)
                && navigations == old(navigations) + (if Truthy(reply.url) then [External(reply.url.value)] else [])
    {
      isAuthenticating := true;
      storedState := Some(uuid);
      authUrlRequests := authUrlRequests + [(origin + "/auth", uuid)];
      match reply {
        case AuthUrlError(m) =>
          toasts := toasts + [OrElse(m, ConnectFailed)];
          isAuthenticating := false;
        case AuthUrlData(url) =>
          if Truthy(url) {
            navigations := navigations + [External(url.value)];
          }
      }
    }

    /** The redirect effect: home only for a signed-in user, once loading is
        over and no callback is being processed. */
    method RedirectEffect(hasUser: bool, isLoading: bool)
      modifies this
      ensures navigations == old(navigations) + (if hasUser && !isLoading && !isProcessingCallback then [Route("/")] else [])
      ensures searchParams == old(searchParams) && storedState == old(storedState)
      ensures processing == old(processing) && isProcessingCallback == old(isProcessingCallback)
      ensures isAuthenticating == old(isAuthenticating)
      ensures callbacks == old(callbacks) && authUrlRequests == old(authUrlRequests) && toasts == old(toasts)
    {
      if hasUser && !isLoading && !isProcessingCallback {
        navigations := navigations + [Route("/")];
      }
    }
  }

  /** The whole round: the state the page stores and sends to the URL builder
      is the `state` parameter of the issued URL, so when the provider hands
      it back beside a code, the callback effect accepts that code. */
  lemma StoredStateAcceptsReturn(clientId: Option<string>, redirectUri: string, uuid: string, generated: string, code: string)
    requires Truthy(clientId) && uuid != "" && code != ""
    ensures var r := FigmaAuthUrl.Build(clientId, redirectUri, Some(uuid), generated);
            && r.Issued? && r.state == uuid
            && Get(Parse(FigmaAuthUrl.QueryOf(r.url)), "state") == Some(uuid)
            && CallbackDecision([("code", code), ("state", r.state)], Some(uuid), false) == Accept(code)
  {
    FigmaAuthUrl.IssuedUrlDecodes(clientId, redirectUri, Some(uuid), generated);
    var ps: Params := [("code", code), ("state", uuid)];
    assert Get(ps[1..], "state") == Some(uuid);
  }

  /** A state other than the stored one is turned away, whatever the code. */
  lemma ForeignStateRejected(code: string, state: string, stored: string)
    requires code != "" && state != "" && state != stored
    ensures CallbackDecision([("code", code), ("state", state)], Some(stored), false) == Reject
  {
    var ps: Params := [("code", code), ("state", state)];
    assert Get(ps[1..], "state") == Some(state);
  }
}
