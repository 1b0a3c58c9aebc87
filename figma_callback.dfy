/** The `figma-callback` edge function: turns a one-time authorization code
    into a local session. The steps run strictly in order: configuration
    check, code exchange, provider "me" lookup, identity resolution, token
    upsert, magic-link generation, response. Every call into the provider is
    an input of type `ProviderReply`, and every call into the auth admin API
    an `Outcome` (for `listUsers`, only whether it answered); the handler's
    observable behaviour is the new tables, the log of calls it made, and the
    response. */
module FigmaCallback {
  import opened Outcomes
  import opened SupabaseStore
  import SessionToken

  const CredentialsMissing := "Figma credentials not configured"
  const ExchangeFailed := "Failed to exchange code for token"
  const UserInfoFailed := "Failed to get Figma user info"

  /** What a request to the provider gives: the body of an OK response, a
      response that is not OK, or an exception (network failure, unreadable
      body) with the message the handler reports for it. */
  datatype ProviderReply<+T> = Answered(body: T) | NotOk | Threw(message: string)

  /** The message a failed provider request ends the handler with. */
  function FailureText<T>(reply: ProviderReply<T>, notOk: string): (m: string)
    requires !reply.Answered?
    ensures reply.NotOk? ==> m == notOk
    ensures reply.Threw? ==> m == reply.message
  {
    if reply.NotOk? then notOk else reply.message
  }

  /** The body of a successful `POST /v1/oauth/token`. */
  datatype TokenPayload = TokenPayload(accessToken: string, refreshToken: Option<string>, expiresIn: int)

  /** The body of a successful `GET /v1/me`. */
  datatype FigmaUser = FigmaUser(id: string, email: string, handle: string, imgUrl: string)

  /** What the handler learns from outside: the two credentials from the
      environment, the answers of the provider and of the auth admin API
      (`createUser` gives the new user's id; `listUsersOk` says whether
      `listUsers` answered with the users rather than an error;
      `generateLink` gives the `properties.action_link` of its reply, which
      may be absent), and the clock in milliseconds. */
  datatype Env = Env(
    clientId: Option<string>,
    clientSecret: Option<string>,
    exchange: ProviderReply<TokenPayload>,
    me: ProviderReply<FigmaUser>,
    createUser: Outcome<string>,
    listUsersOk: bool,
    generateLink: Outcome<Option<string>>,
    now: int)

  /** The `user_metadata` sent with a new auth user. */
  datatype UserMetadata = UserMetadata(figmaId: string, name: string, avatarUrl: string)

  /** The calls the handler makes, in the order it makes them. */
  datatype Effect =
    | ExchangeCode(code: string, redirectUri: string)
    | FetchMe(accessToken: string)
    | LookupProfile(figmaId: string)
    | UpdateProfile(userId: string)
    | CreateUser(email: string, emailConfirm: bool, metadata: UserMetadata)
    | ListUsers
    | UpsertProfile(userId: string)
    | UpsertTokens(userId: string)
    | GenerateLink(email: string, redirectTo: string)

  datatype UserInfo = UserInfo(id: string, email: string, name: string, avatarUrl: string, figmaId: string)

  /** The JSON body sent back. Its success form has no field for the
      provider's access or refresh token. */
  datatype Response =
    | Success(user: UserInfo, magicLink: Option<string>, sessionToken: Option<string>)
    | Failure(status: int, error: string)

  datatype Tables = Tables(profiles: map<string, Profile>, authUsers: seq<AuthUser>, tokens: map<string, TokenRow>)

  datatype Run = Run(tables: Tables, effects: seq<Effect>, response: Response)

  /** The outcome of identity resolution: the local user id with the tables it
      wrote, or the auth error that ends the handler. */
  datatype Identity =
    | Resolved(userId: string, profiles: map<string, Profile>, authUsers: seq<AuthUser>, effects: seq<Effect>)
    | Unresolved(error: string, effects: seq<Effect>)

  /** Both credentials are present and non-empty: an absent or empty one is
      falsy. */
  predicate Configured(env: Env): (b: bool)
    ensures b <==> env.clientId.Some? && env.clientId.value != "" && env.clientSecret.Some? && env.clientSecret.value != ""
  {
    Truthy(env.clientId) && Truthy(env.clientSecret)
  }

  /** The `createUser` request for the provider user `u`: its email,
      already confirmed, with the provider id, handle and avatar as metadata. */
  function NewUserRequest(u: FigmaUser): Effect {
    CreateUser(u.email, true, UserMetadata(u.id, u.handle, u.imgUrl))
  }

  /** The profile the new-user branch upserts. */
  function LinkedProfile(u: FigmaUser): Profile {
    Profile(Some(u.id), u.email, u.handle, u.imgUrl)
  }

  /** The row written for the resolved user; `expires_at` is `expires_in`
      seconds after `now`. */
  function NewTokenRow(tok: TokenPayload, now: int): (row: TokenRow)
    ensures row.expiresAt == Some(now + tok.expiresIn * 1000)
    ensures row.accessToken == tok.accessToken && row.refreshToken == tok.refreshToken
  {
    TokenRow(tok.accessToken, tok.refreshToken, Some(now + tok.expiresIn * 1000))
  }

  /** No two profiles are linked to the same provider account. */
  ghost predicate FigmaIdsUnique(profiles: map<string, Profile>) {
    forall a, b ::
      (a in profiles && b in profiles && profiles[a].figmaId.Some? && profiles[a].figmaId == profiles[b].figmaId)
      ==> a == b
  }

  /** Lines 65-110: reuse the profile linked to this provider account, or
      create an auth user, falling back to an existing user with the same
      email when creation fails. A failed `listUsers` lists nobody, so the
      fallback then finds no one. */
  ghost function ResolveIdentity(profiles: map<string, Profile>, users: seq<AuthUser>, u: FigmaUser,
                                 create: Outcome<string>, listUsersOk: bool): (r: Identity)
    // an existing profile: its id, only its email, name and avatar replaced, no auth user created
    ensures |ProfilesWithFigmaId(profiles, u.id)| == 1 ==>
              && r.Resolved?
              && ProfilesWithFigmaId(profiles, u.id) == {r.userId}
              && r.authUsers == users
              && r.profiles.Keys == profiles.Keys
              && r.profiles[r.userId]
                 == profiles[r.userId].(email := u.email, name := u.handle, avatarUrl := u.imgUrl)
              && (forall id :: id in profiles && id != r.userId ==> r.profiles[id] == profiles[id])
              && r.effects == [LookupProfile(u.id), UpdateProfile(r.userId)]
    // no such profile, creation succeeds: the new user's id
    ensures |ProfilesWithFigmaId(profiles, u.id)| != 1 && create.Ok? ==>
              && r.Resolved?
              && r.userId == create.payload
              && r.authUsers == users + [AuthUser(create.payload, u.email)]
              && r.effects == [LookupProfile(u.id), NewUserRequest(u), UpsertProfile(r.userId)]
    // creation fails: the first listed user with the same email, or else the creation error
    ensures |ProfilesWithFigmaId(profiles, u.id)| != 1 && create.Fail? ==>
              && (r.Resolved? <==> listUsersOk && FirstWithEmail(users, u.email).Some?)
              && (r.Resolved? ==>
                    && r.userId == FirstWithEmail(users, u.email).value
                    && r.authUsers == users
                    && r.effects == [LookupProfile(u.id), NewUserRequest(u), ListUsers, UpsertProfile(r.userId)])
              && (r.Unresolved? ==>
                    r == Unresolved(create.message, [LookupProfile(u.id), NewUserRequest(u), ListUsers]))
    // in the new-user branch the profile is upserted with the provider's id
    ensures |ProfilesWithFigmaId(profiles, u.id)| != 1 && r.Resolved? ==>
              r.profiles == profiles[r.userId := LinkedProfile(u)]
    // with no profile linked before, the lookup now finds the resolved user
    ensures |ProfilesWithFigmaId(profiles, u.id)| == 0 && r.Resolved? ==>
              SingleProfile(r.profiles, u.id) == Some(r.userId)
  {
    match SingleProfile(profiles, u.id)
    case Some(id) =>
      var p := profiles[id];
      Resolved(id, profiles[id := p.(email := u.email, name := u.handle, avatarUrl := u.imgUrl)], users,
               [LookupProfile(u.id), UpdateProfile(id)])
    case None =>
      var fx := [LookupProfile(u.id), NewUserRequest(u)];
      if create.Ok? then
        var id := create.payload;
        NewLinkSingle(profiles, id, u);
        Resolved(id, profiles[id := LinkedProfile(u)], users + [AuthUser(id, u.email)], fx + [UpsertProfile(id)])
      else
        match if listUsersOk then FirstWithEmail(users, u.email) else None
        case Some(id) =>
          NewLinkSingle(profiles, id, u);
          Resolved(id, profiles[id := LinkedProfile(u)], users, fx + [ListUsers, UpsertProfile(id)])
        case None =>
          Unresolved(create.message, fx + [ListUsers])
  }

  lemma NewLinkSingle(profiles: map<string, Profile>, id: string, u: FigmaUser)
    ensures |ProfilesWithFigmaId(profiles, u.id)| == 0 ==>
              SingleProfile(profiles[id := LinkedProfile(u)], u.id) == Some(id)
  {
    var before := ProfilesWithFigmaId(profiles, u.id);
    var after := ProfilesWithFigmaId(profiles[id := LinkedProfile(u)], u.id);
    assert after <= before + {id};
    assert id in after;
    if |before| == 0 {
      assert before == {};
      assert after == {id};
    }
  }

  /** Lines 112-145, once identity resolution has given `id` for the provider
      user `u` with the tokens `tok`: the token upsert, the magic link and the
      reply. */
  function StoreAndLink(t: Tables, id: Identity, tok: TokenPayload, u: FigmaUser, redirectUri: string, env: Env): (r: Run)
    // an unresolved identity: the auth error, and no write at all
    ensures id.Unresolved? ==> r == Run(t, id.effects, Failure(400, id.error))
    ensures id.Resolved? ==>
              // exactly one token row for the user, the others untouched
              && r.tables.profiles == id.profiles
              && r.tables.authUsers == id.authUsers
              && r.tables.tokens.Keys == t.tokens.Keys + {id.userId}
              && r.tables.tokens[id.userId] == NewTokenRow(tok, env.now)
              && (forall uid :: uid in t.tokens && uid != id.userId ==> r.tables.tokens[uid] == t.tokens[uid])
              && r.effects == id.effects + [UpsertTokens(id.userId), GenerateLink(u.email, redirectUri)]
              // a failed magic link is an error, but the tokens stay written
              && (env.generateLink.Fail? ==> r.response == Failure(400, env.generateLink.message))
              && (env.generateLink.Ok? ==>
                    r.response == Success(UserInfo(id.userId, u.email, u.handle, u.imgUrl, u.id),
                                          env.generateLink.payload,
                                          SessionToken.Extract(env.generateLink.payload)))
  {
    if id.Unresolved? then Run(t, id.effects, Failure(400, id.error))
    else
      var tables := Tables(id.profiles, id.authUsers, t.tokens[id.userId := NewTokenRow(tok, env.now)]);
      var fx := id.effects + [UpsertTokens(id.userId), GenerateLink(u.email, redirectUri)];
      if env.generateLink.Fail? then Run(tables, fx, Failure(400, env.generateLink.message))
      else
        var link := env.generateLink.payload;
        Run(tables, fx, Success(UserInfo(id.userId, u.email, u.handle, u.imgUrl, u.id), link, SessionToken.Extract(link)))
  }

  /** The handler body, lines 14-153. */
  ghost function Handle(t: Tables, code: string, redirectUri: string, env: Env): (r: Run)
    ensures r.tables.tokens.Keys >= t.tokens.Keys
  {
    if !Configured(env) then Run(t, [], Failure(400, CredentialsMissing))
    else
      var fx := [ExchangeCode(code, redirectUri)];
      if !env.exchange.Answered? then Run(t, fx, Failure(400, FailureText(env.exchange, ExchangeFailed)))
      else
        var tok := env.exchange.body;
        var fx := fx + [FetchMe(tok.accessToken)];
        if !env.me.Answered? then Run(t, fx, Failure(400, FailureText(env.me, UserInfoFailed)))
        else
          var u := env.me.body;
          var s := StoreAndLink(t, ResolveIdentity(t.profiles, t.authUsers, u, env.createUser, env.listUsersOk),
                                tok, u, redirectUri, env);
          Run(s.tables, fx + s.effects, s.response)
  }

  /** A missing credential fails before any call and any store access; a
      failed exchange or "me" lookup fails with nothing written, with the
      fixed message for a response that is not OK and the exception's own
      message otherwise. */
  lemma HandleFailsEarly(t: Tables, code: string, redirectUri: string, env: Env)
    ensures !Configured(env) ==> Handle(t, code, redirectUri, env) == Run(t, [], Failure(400, CredentialsMissing))
    ensures Configured(env) && env.exchange.NotOk? ==>
              Handle(t, code, redirectUri, env) == Run(t, [ExchangeCode(code, redirectUri)], Failure(400, ExchangeFailed))
    ensures Configured(env) && env.exchange.Threw? ==>
              Handle(t, code, redirectUri, env)
              == Run(t, [ExchangeCode(code, redirectUri)], Failure(400, env.exchange.message))
    ensures Configured(env) && env.exchange.Answered? && env.me.NotOk? ==>
              Handle(t, code, redirectUri, env)
              == Run(t, [ExchangeCode(code, redirectUri), FetchMe(env.exchange.body.accessToken)], Failure(400, UserInfoFailed))
    ensures Configured(env) && env.exchange.Answered? && env.me.Threw? ==>
              Handle(t, code, redirectUri, env)
              == Run(t, [ExchangeCode(code, redirectUri), FetchMe(env.exchange.body.accessToken)], Failure(400, env.me.message))
  {
  }

  /** After both provider calls succeed: identity resolution, then the token
      upsert and the magic link for the identity it gives. */
  lemma HandleSignsIn(t: Tables, code: string, redirectUri: string, env: Env)
    requires Configured(env) && env.exchange.Answered? && env.me.Answered?
    ensures var u := env.me.body;
            var id := ResolveIdentity(t.profiles, t.authUsers, u, env.createUser, env.listUsersOk);
            var s := StoreAndLink(t, id, env.exchange.body, u, redirectUri, env);
            Handle(t, code, redirectUri, env)
            == Run(s.tables, [ExchangeCode(code, redirectUri), FetchMe(env.exchange.body.accessToken)] + s.effects, s.response)
  {
  }

  /** Identity resolution never links a second profile to a provider account. */
  lemma ResolveKeepsFigmaIdsUnique(profiles: map<string, Profile>, users: seq<AuthUser>, u: FigmaUser,
                                   create: Outcome<string>, listUsersOk: bool)
    requires FigmaIdsUnique(profiles)
    ensures var id := ResolveIdentity(profiles, users, u, create, listUsersOk);
            id.Resolved? ==> FigmaIdsUnique(id.profiles)
  {
    var matching := ProfilesWithFigmaId(profiles, u.id);
    var id := ResolveIdentity(profiles, users, u, create, listUsersOk);
    if id.Resolved? && |matching| != 1 {
      UniqueLinkAtMostOne(profiles, u.id);
      assert matching == {};
      var after := id.profiles;
      assert after == profiles[id.userId := LinkedProfile(u)];
      forall a, b | a in after && b in after && after[a].figmaId.Some? && after[a].figmaId == after[b].figmaId
        ensures a == b
      {
        assert a != id.userId ==> a in profiles && after[a] == profiles[a];
        assert b != id.userId ==> b in profiles && after[b] == profiles[b];
        assert a != id.userId && after[a].figmaId == Some(u.id) ==> a in matching;
        assert b != id.userId && after[b].figmaId == Some(u.id) ==> b in matching;
      }
    }
  }

  /** A callback never links a second profile to a provider account. */
  lemma HandleKeepsFigmaIdsUnique(t: Tables, code: string, redirectUri: string, env: Env)
    requires FigmaIdsUnique(t.profiles)
    ensures FigmaIdsUnique(Handle(t, code, redirectUri, env).tables.profiles)
  {
    if Configured(env) && env.exchange.Answered? && env.me.Answered? {
      ResolveKeepsFigmaIdsUnique(t.profiles, t.authUsers, env.me.body, env.createUser, env.listUsersOk);
    }
  }

  lemma UniqueLinkAtMostOne(profiles: map<string, Profile>, figmaId: string)
    requires FigmaIdsUnique(profiles)
    ensures |ProfilesWithFigmaId(profiles, figmaId)| <= 1
  {
    var s := ProfilesWithFigmaId(profiles, figmaId);
    if s != {} {
      var a :| a in s;
      assert s == {a};
    }
  }

  /** Identity resolution as the handler runs it against the database. */
  method ResolveUser(db: Database, u: FigmaUser, create: Outcome<string>, listUsersOk: bool)
    returns (id: Identity)
    modifies db
    ensures id == ResolveIdentity(old(db.profiles), old(db.authUsers), u, create, listUsersOk)
    ensures id.Resolved? ==> db.profiles == id.profiles && db.authUsers == id.authUsers
    ensures id.Unresolved? ==> db.profiles == old(db.profiles) && db.authUsers == old(db.authUsers)
    ensures db.tokens == old(db.tokens) && db.cachedFiles == old(db.cachedFiles)
  {
    var effects := [LookupProfile(u.id)];
    var existing := ProfilesWithFigmaId(db.profiles, u.id);
    if |existing| == 1 {
      var userId :| userId in existing;
      OnlyElement(existing, userId);
      var p := db.profiles[userId];
      db.profiles := db.profiles[userId := p.(email := u.email, name := u.handle, avatarUrl := u.imgUrl)];
      effects := effects + [UpdateProfile(userId)];
      return Resolved(userId, db.profiles, db.authUsers, effects);
    }
    effects := effects + [NewUserRequest(u)];
    var userId: string;
    match create {
      case Ok(newId) =>
        db.authUsers := db.authUsers + [AuthUser(newId, u.email)];
        userId := newId;
      case Fail(message) =>
        effects := effects + [ListUsers];
        var found := if listUsersOk then FirstWithEmail(db.authUsers, u.email) else None;
        if found.None? {
          return Unresolved(message, effects);
        }
        userId := found.value;
    }
    db.profiles := db.profiles[userId := LinkedProfile(u)];
    effects := effects + [UpsertProfile(userId)];
    id := Resolved(userId, db.profiles, db.authUsers, effects);
  }

  /** The handler as it runs, step by step, against the database. */
  method HandleCallback(db: Database, code: string, redirectUri: string, env: Env)
    returns (response: Response, effects: seq<Effect>)
    modifies db
    ensures Run(Tables(db.profiles, db.authUsers, db.tokens), effects, response)
            == Handle(old(Tables(db.profiles, db.authUsers, db.tokens)), code, redirectUri, env)
    ensures db.cachedFiles == old(db.cachedFiles)
  {
    effects := [];
    if !Truthy(env.clientId) || !Truthy(env.clientSecret) {
      return Failure(400, CredentialsMissing), effects;
    }

    effects := effects + [ExchangeCode(code, redirectUri)];
    if !env.exchange.Answered? {
      return Failure(400, FailureText(env.exchange, ExchangeFailed)), effects;
    }
    var tokens := env.exchange.body;

    effects := effects + [FetchMe(tokens.accessToken)];
    if !env.me.Answered? {
      return Failure(400, FailureText(env.me, UserInfoFailed)), effects;
    }
    var figmaUser := env.me.body;

    var signInEffects;
    response, signInEffects := SignInUser(db, tokens, figmaUser, redirectUri, env);
    effects := effects + signInEffects;
  }

  /** Identity resolution, then the token upsert and the magic link, against
      the database. */
  method SignInUser(db: Database, tokens: TokenPayload, figmaUser: FigmaUser, redirectUri: string, env: Env)
    returns (response: Response, effects: seq<Effect>)
    modifies db
    ensures var id := ResolveIdentity(old(db.profiles), old(db.authUsers), figmaUser, env.createUser, env.listUsersOk);
            Run(Tables(db.profiles, db.authUsers, db.tokens), effects, response)
            == StoreAndLink(old(Tables(db.profiles, db.authUsers, db.tokens)), id, tokens, figmaUser, redirectUri, env)
    ensures db.cachedFiles == old(db.cachedFiles)
  {
    var id := ResolveUser(db, figmaUser, env.createUser, env.listUsersOk);
    response, effects := StoreTokensAndLink(db, id, tokens, figmaUser, redirectUri, env);
  }

  /** The token upsert, the magic link and the reply against the database,
      once `ResolveUser` has given `id` and written its profiles and users. */
  method StoreTokensAndLink(db: Database, id: Identity, tokens: TokenPayload, figmaUser: FigmaUser,
                            redirectUri: string, env: Env)
    returns (response: Response, effects: seq<Effect>)
    requires id.Resolved? ==> db.profiles == id.profiles && db.authUsers == id.authUsers
    modifies db
    ensures Run(Tables(db.profiles, db.authUsers, db.tokens), effects, response)
            == StoreAndLink(old(Tables(db.profiles, db.authUsers, db.tokens)), id, tokens, figmaUser, redirectUri, env)
    ensures db.cachedFiles == old(db.cachedFiles)
  {
    effects := id.effects;
    if id.Unresolved? {
      return Failure(400, id.error), effects;
    }
    var userId := id.userId;

    db.tokens := db.tokens[userId := NewTokenRow(tokens, env.now)];
    effects := effects + [UpsertTokens(userId)];

    effects := effects + [GenerateLink(figmaUser.email, redirectUri)];
    if env.generateLink.Fail? {
      return Failure(400, env.generateLink.message), effects;
    }
    var magicLink := env.generateLink.payload;
    var sessionToken := SessionToken.Extract(magicLink);
    response := Success(UserInfo(userId, figmaUser.email, figmaUser.handle, figmaUser.imgUrl, figmaUser.id),
                        magicLink, sessionToken);
  }
}
