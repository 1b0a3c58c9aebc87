/** The session token the callback pulls out of the magic link with
    `magicLink.match(/token=([^&]+)/)`: the first capture group of the
    leftmost match. */
module SessionToken {
  import opened Outcomes

  const Marker := "token="

  /** The regular expression matches at `i`: `token=` starts there and at
      least one character other than `&` follows it. */
  predicate MatchesAt(s: string, i: int) {
    0 <= i && i + |Marker| < |s| && s[i..i + |Marker|] == Marker && s[i + |Marker|] != '&'
  }

  /** The maximal run of characters other than `&` starting at `j`. */
  function RunFrom(s: string, j: nat): (r: string)
    requires j <= |s|
    ensures j + |r| <= |s| && r == s[j..j + |r|]
    ensures '&' !in r
    ensures j + |r| == |s| || s[j + |r|] == '&'
    ensures j < |s| && s[j] != '&' ==> r != ""
    decreases |s| - j
  {
    if j == |s| || s[j] == '&' then "" else [s[j]] + RunFrom(s, j + 1)
  }

  /** The leftmost position at or after `i` where the regular expression matches. */
  function LeftmostMatch(s: string, i: nat): (r: Option<nat>)
    requires i <= |s|
    ensures r.None? <==> forall k :: i <= k < |s| ==> !MatchesAt(s, k)
    ensures r.Some? ==> i <= r.value < |s| && MatchesAt(s, r.value)
                        && forall m :: i <= m < r.value ==> !MatchesAt(s, m)
    decreases |s| - i
  {
    if i + |Marker| >= |s| then None
    else if MatchesAt(s, i) then Some(i)
    else LeftmostMatch(s, i + 1)
  }

  /** `tokenMatch ? tokenMatch[1] : null` for a link that may be absent. */
  function Extract(link: Option<string>): (r: Option<string>)
    ensures link.None? ==> r.None?
    ensures link.Some? ==> (r.None? <==> forall k :: 0 <= k < |link.value| ==> !MatchesAt(link.value, k))
    ensures link.Some? && r.Some? ==>
              exists k :: MatchesAt(link.value, k) && r.value == RunFrom(link.value, k + |Marker|)
                          && forall m :: 0 <= m < k ==> !MatchesAt(link.value, m)
    ensures r.Some? ==> r.value != "" && '&' !in r.value
  {
    if link.None? then None
    else
      match LeftmostMatch(link.value, 0)
      case None => None
      case Some(k) => Some(RunFrom(link.value, k + |Marker|))
  }

  /** A run of non-`&` characters that ends at an `&` or at the end is the maximal one. */
  lemma RunIsMaximal(s: string, j: nat, n: nat)
    requires j + n <= |s| && '&' !in s[j..j + n]
    requires j + n == |s| || s[j + n] == '&'
    ensures RunFrom(s, j) == s[j..j + n]
  {
    var r := RunFrom(s, j);
    assert forall k :: j <= k < j + n ==> s[k] == s[j..j + n][k - j] && s[k] != '&';
    assert forall k :: j <= k < j + |r| ==> s[k] == r[k - j] && s[k] != '&';
  }

  /** The token of a link shaped like the magic link the auth service issues:
      the first `token=` is followed by the token and then `&` or the end. */
  lemma LeadingTokenExtracted(prefix: string, token: string, rest: string)
    requires forall k :: 0 <= k < |prefix| ==> !MatchesAt(prefix + Marker + token + rest, k)
    requires token != "" && '&' !in token
    requires rest == [] || rest[0] == '&'
    ensures Extract(Some(prefix + Marker + token + rest)) == Some(token)
  {
    var s := prefix + Marker + token + rest;
    var i := |prefix| + |Marker|;
    assert s[|prefix|..i] == Marker;
    assert s[i..i + |token|] == token;
    assert s[i] == token[0];
    assert MatchesAt(s, |prefix|);
    assert LeftmostMatch(s, 0) == Some(|prefix|);
    assert rest != [] ==> s[i + |token|] == rest[0];
    RunIsMaximal(s, i, |token|);
  }
}
