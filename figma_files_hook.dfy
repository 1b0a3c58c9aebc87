/** The client side of the file listing: the `useFigmaFiles` hook that calls
    the `figma-files` function and keeps its answer, and the relative-time
    label shown beside each file. */
module FigmaFilesHook {
  import opened Outcomes
  import FigmaFiles

  const Minute := 60000
  const Hour := 3600000
  const Day := 86400000
  const Week := 604800000

  const NotAuthenticated := "Not authenticated"

  // ---------------------------------------------------------------------------
  // Decimal rendering of a count, as a template literal prints a non-negative integer

  function DigitChar(d: nat): (c: char)
    requires d < 10
    ensures '0' <= c <= '9' && c as int - '0' as int == d
  {
    (d + '0' as int) as char
  }

  predicate IsDigits(s: string) {
    forall k :: 0 <= k < |s| ==> '0' <= s[k] <= '9'
  }

  function Decimal(n: nat): (s: string)
    ensures |s| >= 1 && IsDigits(s)
    ensures n >= 10 ==> s[0] != '0'
  {
    if n < 10 then [DigitChar(n)] else Decimal(n / 10) + [DigitChar(n % 10)]
  }

  /** The number a string of digits denotes. */
  function DecimalValue(s: string): nat
    requires IsDigits(s)
  {
    if s == [] then 0 else DecimalValue(s[..|s| - 1]) * 10 + (s[|s| - 1] as int - '0' as int)
  }

  /** Reading the printed count back gives the count. */
  lemma {:induction false} DecimalRoundTrip(n: nat)
    ensures DecimalValue(Decimal(n)) == n
  {
    if n >= 10 {
      DecimalRoundTrip(n / 10);
      var s := Decimal(n);
      assert s[..|s| - 1] == Decimal(n / 10);
    }
  }

  /** Different counts print differently. */
  lemma DecimalInjective(m: nat, n: nat)
    requires Decimal(m) == Decimal(n)
    ensures m == n
  {
    DecimalRoundTrip(m);
    DecimalRoundTrip(n);
  }

  // ---------------------------------------------------------------------------
  // formatRelativeTime

  /** The age buckets the label distinguishes, each with its count. */
  datatype Age =
    | JustNow
    | Minutes(count: nat)
    | Hours(count: nat)
    | Yesterday
    | Days(count: nat)
    | LastWeek
    | Weeks(count: nat)
    | OnDate

  /** The bucket an age in milliseconds falls in, stated by its bounds; an age
      in the future counts as "just now". */
  function Classify(diffMs: int): (a: Age)
    ensures a == JustNow <==> diffMs < Minute
    ensures a.Minutes? <==> Minute <= diffMs < Hour
    ensures a.Hours? <==> Hour <= diffMs < Day
    ensures a == Yesterday <==> Day <= diffMs < 2 * Day
    ensures a.Days? <==> 2 * Day <= diffMs < Week
    ensures a == LastWeek <==> Week <= diffMs < 2 * Week
    ensures a.Weeks? <==> 2 * Week <= diffMs < 4 * Week
    ensures a == OnDate <==> 4 * Week <= diffMs
    ensures a.Minutes? ==> 1 <= a.count < 60 && a.count * Minute <= diffMs < (a.count + 1) * Minute
    ensures a.Hours? ==> 1 <= a.count < 24 && a.count * Hour <= diffMs < (a.count + 1) * Hour
    ensures a.Days? ==> 2 <= a.count < 7 && a.count * Day <= diffMs < (a.count + 1) * Day
    ensures a.Weeks? ==> 2 <= a.count < 4 && a.count * Week <= diffMs < (a.count + 1) * Week
  {
    if diffMs < Minute then JustNow
    else if diffMs < Hour then Minutes(diffMs / Minute)
    else if diffMs < Day then Hours(diffMs / Hour)
    else if diffMs < 2 * Day then Yesterday
    else if diffMs < Week then Days(diffMs / Day)
    else if diffMs < 2 * Week then LastWeek
    else if diffMs < 4 * Week then Weeks(diffMs / Week)
    else OnDate
  }

  /** The text of a bucket; `localeDate` is what `toLocaleDateString` gives. */
  function Render(a: Age, localeDate: string): (s: string)
    ensures a.Hours? ==> s == Decimal(a.count) + (if a.count > 1 then " hours ago" else " hour ago")
  {
    match a
    case JustNow => "Just now"
    case Minutes(n) => Decimal(n) + " min ago"
    case Hours(n) => Decimal(n) + " hour" + (if n > 1 then "s" else "") + " ago"
    case Yesterday => "Yesterday"
    case Days(n) => Decimal(n) + " days ago"
    case LastWeek => "Last week"
    case Weeks(n) => Decimal(n) + " weeks ago"
    case OnDate => localeDate
  }

  /** `formatRelativeTime`: `diffMs` is the current time minus the file's time,
      both in milliseconds; whole minutes, hours, days and weeks are taken by
      flooring, and the first matching test wins. */
  function FormatRelativeTime(diffMs: int, localeDate: string): (s: string)
    ensures s == Render(Classify(diffMs), localeDate)
  {
    var diffMins := diffMs / Minute;
    var diffHours := diffMs / Hour;
    var diffDays := diffMs / Day;
    var diffWeeks := diffDays / 7;
    if diffMins < 1 then "Just now"
    else if diffMins < 60 then Decimal(diffMins) + " min ago"
    else if diffHours < 24 then Decimal(diffHours) + " hour" + (if diffHours > 1 then "s" else "") + " ago"
    else if diffDays == 1 then "Yesterday"
    else if diffDays < 7 then Decimal(diffDays) + " days ago"
    else if diffWeeks == 1 then "Last week"
    else if diffWeeks < 4 then Decimal(diffWeeks) + " weeks ago"
    else localeDate
  }

  /** The minute label carries the number of whole minutes elapsed. */
  lemma MinutesLabelCountsMinutes(diffMs: int, localeDate: string)
    requires Minute <= diffMs < Hour
    ensures exists n: nat :: 1 <= n < 60 && n * Minute <= diffMs < (n + 1) * Minute
                             && FormatRelativeTime(diffMs, localeDate) == Decimal(n) + " min ago"
  {
    var a := Classify(diffMs);
    assert FormatRelativeTime(diffMs, localeDate) == Decimal(a.count) + " min ago";
  }

  /** The label never depends on the locale date before four weeks. */
  lemma RecentLabelsIgnoreDate(diffMs: int, d1: string, d2: string)
    requires diffMs < 4 * Week
    ensures FormatRelativeTime(diffMs, d1) == FormatRelativeTime(diffMs, d2)
  {
  }

  // ---------------------------------------------------------------------------
  // useFigmaFiles

  /** What `supabase.functions.invoke("figma-files")` resolves to: a transport
      or function error with its message, or the response body. */
  datatype InvokeReply =
    | InvokeFailed(message: string)
    | Answered(error: Option<string>, files: Option<seq<FigmaFiles.FileSummary>>)

  /** The error `fetchFiles` ends with, if any: no session, a failed call, or
      an error the function returned. */
  function FetchError(session: Option<string>, reply: InvokeReply): (e: Option<string>)
    ensures e.None? <==> session.Some? && reply.Answered? && !Truthy(reply.error)
    ensures session.None? ==> e == Some(NotAuthenticated)
    ensures session.Some? && reply.InvokeFailed? ==> e == Some(reply.message)
    ensures session.Some? && reply.Answered? && Truthy(reply.error) ==> e == reply.error
  {
    if session.None? then Some(NotAuthenticated)
    else match reply
      case InvokeFailed(m) => Some(m)
      case Answered(err, _) => if Truthy(err) then err else None
  }

  /** The hook's state. `toasts` collects the descriptions of the error toasts
      shown and `headers` the Authorization headers sent. */
  class FilesHook {
    var files: seq<FigmaFiles.FileSummary>
    var isLoading: bool
    var error: Option<string>
    var toasts: seq<string>
    var headers: seq<string>

    /** Every error on display was also shown as the latest toast. */
    ghost predicate Valid()
      reads this
    {
      error.Some? ==> |toasts| > 0 && toasts[|toasts| - 1] == error.value
    }

    constructor ()
      ensures Valid()
      ensures files == [] && isLoading && error.None? && toasts == [] && headers == []
    {
      files := [];
      isLoading := true;
      error := None;
      toasts := [];
      headers := [];
    }

    /** `fetchFiles`: `session` is the current session's access token, if
        any, and `reply` what the invocation resolves to (ignored without a
        session, since no call is made). */
    method FetchFiles(session: Option<string>, reply: InvokeReply)
      requires Valid()
      modifies this
      ensures Valid() && !isLoading
      ensures headers == old(headers) + (if session.Some? then [FigmaFiles.Bearer + session.value] else [])
      ensures error == FetchError(session, reply)
      ensures error.None? ==> files == (if reply.files.Some? then reply.files.value else [])
                              && toasts == old(toasts)
      ensures error.Some? ==> files == old(files) && toasts == old(toasts) + [error.value]
    {
      isLoading := true;
      error := None;
      var failure: Option<string> := None;
      if session.None? {
        failure := Some(NotAuthenticated);
      } else {
        headers := headers + [FigmaFiles.Bearer + session.value];
        match reply {
          case InvokeFailed(m) =>
            failure := Some(m);
          case Answered(err, fs) =>
            if Truthy(err) {
              failure := err;
            } else {
              files := if fs.Some? then fs.value else [];
            }
        }
      }
      if failure.Some? {
        error := failure;
        toasts := toasts + [failure.value];
      }
      isLoading := false;
    }
  }

  /** The header the hook sends gives the server back exactly the session
      token, so the file lister serves the user that token belongs to. */
  lemma SentHeaderCarriesToken(jwt: string, env: FigmaFiles.Env)
    ensures FigmaFiles.StripBearer(FigmaFiles.Bearer + jwt) == jwt
    ensures FigmaFiles.Caller(Some(FigmaFiles.Bearer + jwt), env) == env.verifyJwt(jwt)
  {
    assert FigmaFiles.BearerAt(FigmaFiles.Bearer + jwt, 0);
  }
}
