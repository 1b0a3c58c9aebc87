/** The `figma-auth-url` edge function: builds the provider's authorization
    URL for a login attempt and hands back the anti-forgery state it embeds. */
module FigmaAuthUrl {
  import opened Outcomes
  import opened Urlencoded

  const AuthorizeEndpoint := "https://www.figma.com/oauth?"
  const Scope := "file_content:read,file_metadata:read,file_versions:read"
  const ClientIdMissing := "FIGMA_CLIENT_ID not configured"

  datatype Response =
    | Issued(url: string, state: string)
    | Failure(status: int, error: string)

  /** The parameter list, in the order the handler writes it. */
  function AuthParams(clientId: string, redirectUri: string, state: string): (ps: Params)
    ensures |ps| == 5
    ensures Get(ps, "state") == Some(state)
  {
    var ps := [("client_id", clientId), ("redirect_uri", redirectUri), ("scope", Scope),
               ("state", state), ("response_type", "code")];
    assert Get(ps[3..], "state") == Some(state);
    assert Get(ps[2..], "state") == Some(state) by { assert ps[2..][1..] == ps[3..]; }
    assert Get(ps[1..], "state") == Some(state) by { assert ps[1..][1..] == ps[2..]; }
    ps
  }

  /** The handler: `clientId` is the FIGMA_CLIENT_ID environment value,
      `redirectUri` and `state` come from the request body, and `generated` is
      the value `crypto.randomUUID()` would return; `state || randomUUID()`
      keeps a non-empty request state and replaces an absent or empty one. */
  function Build(clientId: Option<string>, redirectUri: string, state: Option<string>, generated: string): (r: Response)
    ensures !Truthy(clientId) <==> r == Failure(400, ClientIdMissing)
    ensures r.Issued? ==>
              && r.state == OrElse(state, generated)
              && |AuthorizeEndpoint| <= |r.url|
              && r.url[..|AuthorizeEndpoint|] == AuthorizeEndpoint
              && r.url[|AuthorizeEndpoint|..]
                 == Serialize(AuthParams(clientId.value, redirectUri, r.state))
  {
    if !Truthy(clientId) then Failure(400, ClientIdMissing)
    else
      var ps := AuthParams(clientId.value, redirectUri, OrElse(state, generated));
      Issued(AuthorizeEndpoint + Serialize(ps), Get(ps, "state").value)
  }

  /** The query part of an issued URL. */
  function QueryOf(url: string): string {
    if |AuthorizeEndpoint| <= |url| then url[|AuthorizeEndpoint|..] else ""
  }

  /** Reading the issued URL's query back gives exactly the five parameters in
      order, and its `state` parameter is the state returned beside the URL. */
  lemma IssuedUrlDecodes(clientId: Option<string>, redirectUri: string, state: Option<string>, generated: string)
    requires Truthy(clientId)
    ensures var r := Build(clientId, redirectUri, state, generated);
            && r.Issued?
            && Parse(QueryOf(r.url)) == AuthParams(clientId.value, redirectUri, r.state)
            && Parse(QueryOf(r.url)) == [("client_id", clientId.value), ("redirect_uri", redirectUri),
                                         ("scope", Scope), ("state", r.state), ("response_type", "code")]
            && Get(Parse(QueryOf(r.url)), "state") == Some(r.state)
  {
    var r := Build(clientId, redirectUri, state, generated);
    ParseSerialize(AuthParams(clientId.value, redirectUri, r.state));
  }
}
