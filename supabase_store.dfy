/** The rows the edge functions read and write, and the database object that
    holds the tables: `profiles` keyed by user id, the auth users as a list,
    `figma_tokens` keyed by user id, and the `cached_files` rows. */
module SupabaseStore {
  import opened Outcomes

  /** A `profiles` row; the key of the map is its `id`. */
  datatype Profile = Profile(figmaId: Option<string>, email: string, name: string, avatarUrl: string)

  /** A user of the auth service, as `auth.admin.listUsers()` returns it. */
  datatype AuthUser = AuthUser(id: string, email: string)

  /** A `figma_tokens` row; the key of the map is its `user_id`. */
  datatype TokenRow = TokenRow(accessToken: string, refreshToken: Option<string>, expiresAt: Option<int>)

  /** A `cached_files` row; times are milliseconds since the epoch. */
  datatype CachedFile = CachedFile(
    userId: string,
    fileKey: string,
    title: Option<string>,
    thumbnailUrl: Option<string>,
    fileType: Option<string>,
    lastAccessedAt: int,
    isBookmarked: bool)

  class Database {
    var profiles: map<string, Profile>
    var authUsers: seq<AuthUser>
    var tokens: map<string, TokenRow>
    var cachedFiles: seq<CachedFile>

    constructor (profiles: map<string, Profile>, authUsers: seq<AuthUser>,
                 tokens: map<string, TokenRow>, cachedFiles: seq<CachedFile>)
      ensures this.profiles == profiles && this.authUsers == authUsers
      ensures this.tokens == tokens && this.cachedFiles == cachedFiles
    {
      this.profiles := profiles;
      this.authUsers := authUsers;
      this.tokens := tokens;
      this.cachedFiles := cachedFiles;
    }
  }

  /** The ids of the profiles linked to a provider account. */
  function ProfilesWithFigmaId(profiles: map<string, Profile>, figmaId: string): set<string> {
    set id | id in profiles && profiles[id].figmaId == Some(figmaId)
  }

  /** `.select("id").eq("figma_id", figmaId).single()`: the row's id when
      exactly one profile matches; no data when none or several do. */
  ghost function SingleProfile(profiles: map<string, Profile>, figmaId: string): (r: Option<string>)
    ensures r.Some? <==> |ProfilesWithFigmaId(profiles, figmaId)| == 1
    ensures r.Some? ==> ProfilesWithFigmaId(profiles, figmaId) == {r.value}
  {
    var ids := ProfilesWithFigmaId(profiles, figmaId);
    if |ids| == 1 then
      var id :| id in ids;
      OnlyElement(ids, id);
      Some(id)
    else None
  }

  lemma OnlyElement<T>(s: set<T>, x: T)
    requires |s| == 1 && x in s
    ensures s == {x}
  {
    assert |s - {x}| == 0;
  }

  /** `users.find((u) => u.email === email)`: the first auth user with that email. */
  function FirstWithEmail(users: seq<AuthUser>, email: string): (r: Option<string>)
    ensures r.None? <==> forall k :: 0 <= k < |users| ==> users[k].email != email
    ensures r.Some? ==> exists k :: 0 <= k < |users| && users[k] == AuthUser(r.value, email)
                                    && forall j :: 0 <= j < k ==> users[j].email != email
  {
    if users == [] then None
    else if users[0].email == email then Some(users[0].id)
    else
      var r := FirstWithEmail(users[1..], email);
      assert forall k :: 1 <= k < |users| ==> users[1..][k - 1] == users[k];
      r
  }
}
