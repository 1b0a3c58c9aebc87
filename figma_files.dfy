/** The `figma-files` edge function: authenticates the caller, refreshes the
    stored provider token when it has expired, and lists the caller's most
    recently opened files, refreshed from the provider where it answers and
    taken from the cache where the request fails with an exception. */
module FigmaFiles {
  import opened Outcomes
  import opened SupabaseStore
  import CachedOrder

  const NoAuthHeader := "No authorization header"
  const InvalidUser := "Invalid user token"
  const NoToken := "No Figma token found - please re-authenticate"
  const RefreshRejected := "Token expired - please re-authenticate"
  const NoFilesYet := "No files yet. Open a Figma file link to add it to your library."
  const Bearer := "Bearer "

  /** The body of a successful token refresh. */
  datatype RefreshPayload = RefreshPayload(accessToken: string, refreshToken: Option<string>, expiresIn: int)

  /** What the refresh request gives: an accepted body, a response that is not
      OK, or an exception (network failure, unreadable body) with its message. */
  datatype RefreshOutcome = Granted(payload: RefreshPayload) | Rejected | Thrown(message: string)

  /** The fields of a file the listing reads from the provider. */
  datatype FileData = FileData(name: Option<string>, thumbnailUrl: Option<string>,
                               lastModified: Option<string>, editorType: Option<string>)

  /** What fetching one file gives: its data, a response that is not OK, or an
      exception thrown by the request or by reading its body. */
  datatype FetchOutcome = Fetched(data: FileData) | NotOk | FetchThrew

  /** `last_modified` of a listed file: the provider's timestamp when the file
      was fetched, the cached access time when the fetch threw. */
  datatype LastModified = Remote(stamp: Option<string>) | AccessedAt(ms: int)

  datatype FileSummary = FileSummary(
    key: string,
    name: Option<string>,
    thumbnailUrl: Option<string>,
    lastModified: LastModified,
    editorType: Option<string>,
    isBookmarked: bool)

  /** The outside calls made after the caller is known, in order. */
  datatype Effect = Refresh(refreshToken: Option<string>) | FetchFile(key: string, accessToken: string)

  datatype Response =
    | Listed(files: seq<FileSummary>, message: Option<string>)
    | Failure(status: int, error: string)

  /** The services the handler calls: the auth service's JWT check (the user id
      or nothing), the provider's refresh endpoint, the provider's file
      endpoint by file key and access token, and the clock in milliseconds. */
  datatype Env = Env(verifyJwt: string -> Option<string>,
                     refresh: RefreshOutcome,
                     fetch: (string, string) -> FetchOutcome,
                     now: int)

  /** The `figma_tokens` table after the call, the calls made, and the reply. */
  datatype Run = Run(tokens: map<string, TokenRow>, effects: seq<Effect>, response: Response)

  /** `Bearer ` starts at `i`. */
  predicate BearerAt(s: string, i: int) {
    0 <= i && i + |Bearer| <= |s| && s[i..i + |Bearer|] == Bearer
  }

  function FirstBearer(s: string, i: nat): (r: Option<nat>)
    requires i <= |s|
    ensures r.None? <==> forall k :: i <= k < |s| ==> !BearerAt(s, k)
    ensures r.Some? ==> i <= r.value < |s| && BearerAt(s, r.value)
                        && forall m :: i <= m < r.value ==> !BearerAt(s, m)
    decreases |s| - i
  {
    if i + |Bearer| > |s| then None
    else if BearerAt(s, i) then Some(i)
    else FirstBearer(s, i + 1)
  }

  /** `authHeader.replace("Bearer ", "")`: only the first occurrence is removed. */
  function StripBearer(h: string): (t: string)
    ensures (forall i :: 0 <= i < |h| ==> !BearerAt(h, i)) ==> t == h
    ensures forall i :: BearerAt(h, i) && (forall j :: 0 <= j < i ==> !BearerAt(h, j)) ==>
                          t == h[..i] + h[i + |Bearer|..]
  {
    match FirstBearer(h, 0)
    case None => h
    case Some(i) => h[..i] + h[i + |Bearer|..]
  }

  /** The user the request is made for: the header is present and non-empty
      and the auth service accepts the token in it. */
  function Caller(authHeader: Option<string>, env: Env): (c: Option<string>)
    ensures !Truthy(authHeader) ==> c.None?
    ensures Truthy(authHeader) ==> c == env.verifyJwt(StripBearer(authHeader.value))
  {
    if !Truthy(authHeader) then None else env.verifyJwt(StripBearer(authHeader.value))
  }

  /** The stored token has an expiry and it lies strictly in the past: a null
      expiry never refreshes, nor does one equal to now. */
  predicate NeedsRefresh(row: TokenRow, now: int): (b: bool)
    ensures row.expiresAt.None? ==> !b
    ensures row.expiresAt.Some? ==> (b <==> row.expiresAt.value < now)
  {
    row.expiresAt.Some? && row.expiresAt.value < now
  }

  /** The row written after a refresh. */
  function Refreshed(row: TokenRow, p: RefreshPayload, now: int): (r: TokenRow)
    ensures r.accessToken == p.accessToken
    ensures Truthy(p.refreshToken) ==> r.refreshToken == p.refreshToken
    ensures !Truthy(p.refreshToken) ==> r.refreshToken == row.refreshToken
    ensures r.expiresAt == Some(now + p.expiresIn * 1000)
  {
    TokenRow(p.accessToken, Or(p.refreshToken, row.refreshToken), Some(now + p.expiresIn * 1000))
  }

  /** The listed entry for a cached file whose fetch did not answer "not OK". */
  function Summarize(c: CachedFile, o: FetchOutcome): (f: FileSummary)
    requires !o.NotOk?
    ensures f.key == c.fileKey && f.isBookmarked == c.isBookmarked
    ensures o.Fetched? ==>
              && f.name == (if Truthy(o.data.name) then o.data.name else c.title)
              && f.thumbnailUrl == (if Truthy(o.data.thumbnailUrl) then o.data.thumbnailUrl else c.thumbnailUrl)
              && f.editorType == (if Truthy(o.data.editorType) then o.data.editorType else c.fileType)
              && f.lastModified == Remote(o.data.lastModified)
    ensures o.FetchThrew? ==>
              f == FileSummary(c.fileKey, c.title, c.thumbnailUrl, AccessedAt(c.lastAccessedAt), c.fileType, c.isBookmarked)
  {
    match o
    case Fetched(d) =>
      FileSummary(c.fileKey, Or(d.name, c.title), Or(d.thumbnailUrl, c.thumbnailUrl),
                  Remote(d.lastModified), Or(d.editorType, c.fileType), c.isBookmarked)
    case FetchThrew =>
      FileSummary(c.fileKey, c.title, c.thumbnailUrl, AccessedAt(c.lastAccessedAt), c.fileType, c.isBookmarked)
  }

  /** The listed files for the cached rows, taken one row at a time. */
  function Merged(rows: seq<CachedFile>, token: string, fetch: (string, string) -> FetchOutcome): (fs: seq<FileSummary>)
    ensures |fs| <= |rows|
  {
    if rows == [] then []
    else
      var last := rows[|rows| - 1];
      var o := fetch(last.fileKey, token);
      var init := Merged(rows[..|rows| - 1], token, fetch);
      if o.NotOk? then init else init + [Summarize(last, o)]
  }

  /** The positions of the rows whose fetch did not answer "not OK". */
  function Kept(rows: seq<CachedFile>, token: string, fetch: (string, string) -> FetchOutcome): seq<nat> {
    if rows == [] then []
    else
      var init := Kept(rows[..|rows| - 1], token, fetch);
      if fetch(rows[|rows| - 1].fileKey, token).NotOk? then init else init + [|rows| - 1]
  }

  /** One file request per cached row, in order, each with the same token. */
  function FetchEffects(rows: seq<CachedFile>, token: string): (es: seq<Effect>)
    ensures |es| == |rows|
    ensures forall k :: 0 <= k < |es| ==> es[k] == FetchFile(rows[k].fileKey, token)
  {
    seq(|rows|, k requires 0 <= k < |rows| => FetchFile(rows[k].fileKey, token))
  }

  /** The successful reply: the merged files, and the hint exactly when there are none. */
  function Listing(rows: seq<CachedFile>, token: string, fetch: (string, string) -> FetchOutcome): (resp: Response)
    ensures resp.Listed? && resp.files == Merged(rows, token, fetch)
    ensures resp.message.Some? <==> resp.files == []
    ensures resp.message.Some? ==> resp.message.value == NoFilesYet
  {
    var files := Merged(rows, token, fetch);
    Listed(files, if |files| == 0 then Some(NoFilesYet) else None)
  }

  /** The handler. `tokens` and `cached` are the `figma_tokens` and
      `cached_files` tables before the request. */
  function Handle(tokens: map<string, TokenRow>, cached: seq<CachedFile>,
                  authHeader: Option<string>, env: Env): (r: Run)
    ensures r.tokens.Keys == tokens.Keys
  {
    match Caller(authHeader, env)
    case None =>
      Run(tokens, [], Failure(400, if !Truthy(authHeader) then NoAuthHeader else InvalidUser))
    case Some(uid) =>
      if uid !in tokens then Run(tokens, [], Failure(400, NoToken))
      else Serve(tokens, cached, uid, env)
  }

  /** The handler once the caller `uid` and its stored token are known. */
  function Serve(tokens: map<string, TokenRow>, cached: seq<CachedFile>, uid: string, env: Env): (r: Run)
    requires uid in tokens
    ensures r.tokens.Keys == tokens.Keys
  {
    var row := tokens[uid];
    var rows := CachedOrder.Recent(cached, uid);
    if !NeedsRefresh(row, env.now) then
      Run(tokens, FetchEffects(rows, row.accessToken), Listing(rows, row.accessToken, env.fetch))
    else
      var head := [Refresh(row.refreshToken)];
      match env.refresh
      case Rejected => Run(tokens, head, Failure(400, RefreshRejected))
      case Thrown(m) => Run(tokens, head, Failure(400, m))
      case Granted(p) =>
        Run(tokens[uid := Refreshed(row, p, env.now)], head + FetchEffects(rows, p.accessToken),
            Listing(rows, p.accessToken, env.fetch))
  }

  /** The three ways the request fails before any outside call. */
  lemma HandleRejectsCaller(tokens: map<string, TokenRow>, cached: seq<CachedFile>, authHeader: Option<string>, env: Env)
    ensures !Truthy(authHeader) ==> Handle(tokens, cached, authHeader, env) == Run(tokens, [], Failure(400, NoAuthHeader))
    ensures Truthy(authHeader) && Caller(authHeader, env).None? ==>
              Handle(tokens, cached, authHeader, env) == Run(tokens, [], Failure(400, InvalidUser))
    ensures Caller(authHeader, env).Some? && Caller(authHeader, env).value !in tokens ==>
              Handle(tokens, cached, authHeader, env) == Run(tokens, [], Failure(400, NoToken))
  {
  }

  /** Every failure is a 400 that leaves the token table as it was and
      requests no file. */
  lemma HandleFailureChangesNothing(tokens: map<string, TokenRow>, cached: seq<CachedFile>, authHeader: Option<string>, env: Env)
    ensures var r := Handle(tokens, cached, authHeader, env);
            r.response.Failure? ==>
              r.response.status == 400 && r.tokens == tokens
              && forall k :: 0 <= k < |r.effects| ==> r.effects[k].Refresh?
  {
    var c := Caller(authHeader, env);
    if c.Some? && c.value in tokens {
      ServeFailureChangesNothing(tokens, cached, c.value, env);
    }
  }

  lemma ServeFailureChangesNothing(tokens: map<string, TokenRow>, cached: seq<CachedFile>, uid: string, env: Env)
    requires uid in tokens
    ensures var r := Serve(tokens, cached, uid, env);
            r.response.Failure? ==>
              r.response.status == 400 && r.tokens == tokens
              && forall k :: 0 <= k < |r.effects| ==> r.effects[k].Refresh?
  {
    var row := tokens[uid];
    if !NeedsRefresh(row, env.now) {
      assert Serve(tokens, cached, uid, env).response.Listed?;
    } else if env.refresh.Granted? {
      assert Serve(tokens, cached, uid, env).response.Listed?;
    } else {
      assert Serve(tokens, cached, uid, env).effects == [Refresh(row.refreshToken)];
    }
  }

  /** The refresh endpoint is called exactly when the caller's stored token
      has expired, and then before anything else; a refusal or an exception
      ends the request with its message. */
  lemma HandleRefreshesExpiredOnly(tokens: map<string, TokenRow>, cached: seq<CachedFile>, authHeader: Option<string>, env: Env)
    ensures var r := Handle(tokens, cached, authHeader, env);
            (exists k :: 0 <= k < |r.effects| && r.effects[k].Refresh?) <==>
              (Caller(authHeader, env).Some? && Caller(authHeader, env).value in tokens
               && NeedsRefresh(tokens[Caller(authHeader, env).value], env.now))
    ensures var r := Handle(tokens, cached, authHeader, env);
            Caller(authHeader, env).Some? && Caller(authHeader, env).value in tokens
            && NeedsRefresh(tokens[Caller(authHeader, env).value], env.now) ==>
              && |r.effects| >= 1 && r.effects[0] == Refresh(tokens[Caller(authHeader, env).value].refreshToken)
              && (env.refresh.Rejected? ==> r == Run(tokens, r.effects, Failure(400, RefreshRejected)))
              && (env.refresh.Thrown? ==> r == Run(tokens, r.effects, Failure(400, env.refresh.message)))
              && (env.refresh.Granted? ==> r.response.Listed?)
  {
    var c := Caller(authHeader, env);
    if c.Some? && c.value in tokens {
      ServeRefreshesExpiredOnly(tokens, cached, c.value, env);
    }
  }

  lemma ServeRefreshesExpiredOnly(tokens: map<string, TokenRow>, cached: seq<CachedFile>, uid: string, env: Env)
    requires uid in tokens
    ensures var r := Serve(tokens, cached, uid, env);
            (exists k :: 0 <= k < |r.effects| && r.effects[k].Refresh?) <==> NeedsRefresh(tokens[uid], env.now)
    ensures var r := Serve(tokens, cached, uid, env);
            NeedsRefresh(tokens[uid], env.now) ==>
              && |r.effects| >= 1 && r.effects[0] == Refresh(tokens[uid].refreshToken)
              && (env.refresh.Rejected? ==> r == Run(tokens, r.effects, Failure(400, RefreshRejected)))
              && (env.refresh.Thrown? ==> r == Run(tokens, r.effects, Failure(400, env.refresh.message)))
              && (env.refresh.Granted? ==> r.response.Listed?)
  {
    var r := Serve(tokens, cached, uid, env);
    var rows := CachedOrder.Recent(cached, uid);
    if !NeedsRefresh(tokens[uid], env.now) {
      var es := FetchEffects(rows, tokens[uid].accessToken);
      assert r.effects == es;
      assert forall k :: 0 <= k < |es| ==> !es[k].Refresh?;
    } else if env.refresh.Granted? {
      var es := FetchEffects(rows, env.refresh.payload.accessToken);
      assert r.effects == [Refresh(tokens[uid].refreshToken)] + es;
      assert r.effects[0].Refresh?;
    } else {
      assert r.effects == [Refresh(tokens[uid].refreshToken)];
      assert r.effects[0].Refresh?;
    }
  }

  /** Only the caller's row can change, and only through an accepted refresh. */
  lemma HandleChangesOnlyCallerRow(tokens: map<string, TokenRow>, cached: seq<CachedFile>, authHeader: Option<string>, env: Env)
    ensures var r := Handle(tokens, cached, authHeader, env);
            forall u :: u in tokens && r.tokens[u] != tokens[u] ==>
              && Caller(authHeader, env) == Some(u) && NeedsRefresh(tokens[u], env.now) && env.refresh.Granted?
              && r.tokens[u] == Refreshed(tokens[u], env.refresh.payload, env.now)
  {
  }

  /** Once the caller and its row are known: a token that has not expired is
      used as stored and nothing is written; an accepted refresh stores the
      new access token, the new refresh token or else the old one, and the
      expiry `expires_in` seconds after now, and every file request after it
      carries the new access token. */
  lemma HandleUsesCurrentToken(tokens: map<string, TokenRow>, cached: seq<CachedFile>, authHeader: Option<string>, env: Env)
    ensures var r := Handle(tokens, cached, authHeader, env);
            var c := Caller(authHeader, env);
            c.Some? && c.value in tokens ==>
              var uid := c.value;
              var row := tokens[uid];
              var rows := CachedOrder.Recent(cached, uid);
              && (!NeedsRefresh(row, env.now) ==>
                    && r.tokens == tokens
                    && r.effects == FetchEffects(rows, row.accessToken)
                    && r.response == Listing(rows, row.accessToken, env.fetch))
              && (NeedsRefresh(row, env.now) && env.refresh.Granted? ==>
                    var p := env.refresh.payload;
                    && r.tokens == tokens[uid := Refreshed(row, p, env.now)]
                    && r.effects == [Refresh(row.refreshToken)] + FetchEffects(rows, p.accessToken)
                    && r.response == Listing(rows, p.accessToken, env.fetch))
  {
  }

  /** A listing requests the caller's 20 most recent cached files, in order,
      all with the access token stored after the call (the refreshed one when
      there was a refresh), and lists what the answers give. */
  lemma HandleListsRecentFiles(tokens: map<string, TokenRow>, cached: seq<CachedFile>, authHeader: Option<string>, env: Env)
    ensures var r := Handle(tokens, cached, authHeader, env);
            r.response.Listed? ==>
              var uid := Caller(authHeader, env).value;
              var rows := CachedOrder.Recent(cached, uid);
              && Caller(authHeader, env).Some? && uid in tokens
              && |r.effects| == |rows| + (if NeedsRefresh(tokens[uid], env.now) then 1 else 0)
              && r.effects[|r.effects| - |rows|..] == FetchEffects(rows, r.tokens[uid].accessToken)
              && r.response == Listing(rows, r.tokens[uid].accessToken, env.fetch)
  {
    var c := Caller(authHeader, env);
    if c.Some? && c.value in tokens {
      ServeListsRecentFiles(tokens, cached, c.value, env);
    }
  }

  lemma ServeListsRecentFiles(tokens: map<string, TokenRow>, cached: seq<CachedFile>, uid: string, env: Env)
    requires uid in tokens
    ensures var r := Serve(tokens, cached, uid, env);
            var rows := CachedOrder.Recent(cached, uid);
            r.response.Listed? ==>
              && |r.effects| == |rows| + (if NeedsRefresh(tokens[uid], env.now) then 1 else 0)
              && r.effects[|r.effects| - |rows|..] == FetchEffects(rows, r.tokens[uid].accessToken)
              && r.response == Listing(rows, r.tokens[uid].accessToken, env.fetch)
  {
    var r := Serve(tokens, cached, uid, env);
    var rows := CachedOrder.Recent(cached, uid);
    if !NeedsRefresh(tokens[uid], env.now) {
      var es := FetchEffects(rows, tokens[uid].accessToken);
      assert r.effects == es;
      assert es[|es| - |rows|..] == es;
    } else if env.refresh.Granted? {
      var p := env.refresh.payload;
      var es := FetchEffects(rows, p.accessToken);
      assert r.tokens[uid].accessToken == p.accessToken;
      assert r.effects == [Refresh(tokens[uid].refreshToken)] + es;
      assert r.effects[|r.effects| - |rows|..] == es;
    }
  }

  /** The listing keeps the order of the cached rows: entry `k` summarises the
      row at position `Kept(...)[k]`, positions increase, and a row is left out
      exactly when its fetch answered "not OK". */
  lemma {:induction false} MergedKeepsOrder(rows: seq<CachedFile>, token: string, fetch: (string, string) -> FetchOutcome)
    ensures var ks := Kept(rows, token, fetch);
            && |Merged(rows, token, fetch)| == |ks|
            && (forall k :: 0 <= k < |ks| ==>
                  (ks[k] < |rows| && !fetch(rows[ks[k]].fileKey, token).NotOk?
                   && Merged(rows, token, fetch)[k] == Summarize(rows[ks[k]], fetch(rows[ks[k]].fileKey, token))))
            && (forall k, m :: 0 <= k < m < |ks| ==> ks[k] < ks[m])
            && (forall i :: 0 <= i < |rows| ==> (i in ks <==> !fetch(rows[i].fileKey, token).NotOk?))
    decreases |rows|
  {
    if rows != [] {
      var n := |rows| - 1;
      var init := rows[..n];
      MergedKeepsOrder(init, token, fetch);
      var ks0 := Kept(init, token, fetch);
      var m0 := Merged(init, token, fetch);
      var o := fetch(rows[n].fileKey, token);
      assert forall i :: 0 <= i < n ==> init[i] == rows[i];
      assert forall k :: 0 <= k < |ks0| ==> ks0[k] < n;
      if o.NotOk? {
        assert Kept(rows, token, fetch) == ks0 && Merged(rows, token, fetch) == m0;
      } else {
        assert Kept(rows, token, fetch) == ks0 + [n];
        assert Merged(rows, token, fetch) == m0 + [Summarize(rows[n], o)];
      }
    }
  }

  /** A listing has one entry per cached row whose fetch did not answer "not
      OK", so it is empty exactly when every fetch answered "not OK". */
  lemma EmptyListing(rows: seq<CachedFile>, token: string, fetch: (string, string) -> FetchOutcome)
    ensures Merged(rows, token, fetch) == [] <==> forall i :: 0 <= i < |rows| ==> fetch(rows[i].fileKey, token).NotOk?
  {
    MergedKeepsOrder(rows, token, fetch);
    var ks := Kept(rows, token, fetch);
    if ks != [] {
      assert ks[0] in ks;
    }
  }

  /** The loop over the cached rows: one request per row, in order. */
  method MergeCached(rows: seq<CachedFile>, token: string, fetch: (string, string) -> FetchOutcome)
    returns (files: seq<FileSummary>, effects: seq<Effect>)
    ensures files == Merged(rows, token, fetch)
    ensures effects == FetchEffects(rows, token)
  {
    files := [];
    effects := [];
    var i := 0;
    while i < |rows|
      invariant 0 <= i <= |rows|
      invariant files == Merged(rows[..i], token, fetch)
      invariant effects == FetchEffects(rows[..i], token)
    {
      var cachedFile := rows[i];
      effects := effects + [FetchFile(cachedFile.fileKey, token)];
      var answer := fetch(cachedFile.fileKey, token);
      if !answer.NotOk? {
        files := files + [Summarize(cachedFile, answer)];
      }
      assert rows[..i + 1][..i] == rows[..i];
      i := i + 1;
    }
    assert rows[..|rows|] == rows;
  }

  /** The handler against the database: only `figma_tokens` may change, and
      exactly as `Handle` says. */
  method HandleFiles(db: Database, authHeader: Option<string>, env: Env)
    returns (response: Response, effects: seq<Effect>)
    modifies db
    ensures Run(db.tokens, effects, response) == Handle(old(db.tokens), old(db.cachedFiles), authHeader, env)
    ensures db.profiles == old(db.profiles) && db.authUsers == old(db.authUsers)
    ensures db.cachedFiles == old(db.cachedFiles)
  {
    effects := [];
    if !Truthy(authHeader) {
      response := Failure(400, NoAuthHeader);
      return;
    }
    var user := env.verifyJwt(StripBearer(authHeader.value));
    if user.None? {
      response := Failure(400, InvalidUser);
      return;
    }
    var uid := user.value;
    if uid !in db.tokens {
      response := Failure(400, NoToken);
      return;
    }
    response, effects := ServeUser(db, uid, env);
  }

  /** The handler after authentication, against the database. */
  method ServeUser(db: Database, uid: string, env: Env) returns (response: Response, effects: seq<Effect>)
    requires uid in db.tokens
    modifies db
    ensures Run(db.tokens, effects, response) == Serve(old(db.tokens), old(db.cachedFiles), uid, env)
    ensures db.profiles == old(db.profiles) && db.authUsers == old(db.authUsers)
    ensures db.cachedFiles == old(db.cachedFiles)
  {
    var tokenData := db.tokens[uid];
    var cachedFiles := CachedOrder.Recent(db.cachedFiles, uid);
    if !NeedsRefresh(tokenData, env.now) {
      var files, fetches := MergeCached(cachedFiles, tokenData.accessToken, env.fetch);
      effects := fetches;
      response := Listed(files, if |files| == 0 then Some(NoFilesYet) else None);
    } else if env.refresh.Rejected? {
      effects := [Refresh(tokenData.refreshToken)];
      response := Failure(400, RefreshRejected);
    } else if env.refresh.Thrown? {
      effects := [Refresh(tokenData.refreshToken)];
      response := Failure(400, env.refresh.message);
    } else {
      var p := env.refresh.payload;
      db.tokens := db.tokens[uid := Refreshed(tokenData, p, env.now)];
      var files, fetches := MergeCached(cachedFiles, p.accessToken, env.fetch);
      effects := [Refresh(tokenData.refreshToken)] + fetches;
      response := Listed(files, if |files| == 0 then Some(NoFilesYet) else None);
    }
  }
}
