# Figma sign-in and token lifecycle, modelled in Dafny

This project models the part of the Figma-pocket app that has real behaviour: the provider login and the life of the stored provider token. It is written in Dafny 4.11. It covers:

- **`figma-auth-url`**: builds the provider's authorization URL and the anti-forgery `state` in it.
- **`figma-callback`**: exchanges the authorization code, finds or creates the local user, stores the provider tokens and returns a magic-link session.
- **`figma-files`**: authenticates the caller, refreshes an expired provider token and lists the caller's 20 most recently opened files.
- **The sign-in page**: stores the `state`, checks it when the provider sends the browser back, and invokes the callback at most once.
- **The `useFigmaFiles` hook**: holds the listing and its error, and formats relative times.
- **The canvas view**: a zoom level and a focus mode.

Every call to the outside is an input of the model rather than something the model performs: the provider's HTTP endpoints, the auth admin API, the JWT check, the random UUID and the clocks. The authorization-URL handler touches no table and is a single function of its inputs. The two handlers that use the database are each stated twice:

- as a pure function of the tables before the request and those inputs, giving the tables after it, the ordered log of calls made, and the response;
- as a method on a `Database` object whose fields are the tables. The method's postcondition ties it to the pure function.

The client pieces are classes whose fields are the component's state.

Modules:

| file | module | models |
|---|---|---|
| outcomes.dfy | `Outcomes` | `Option`, the `Ok`/`Fail` outcome of an outside call, JavaScript truthiness of an optional string, and `\|\|` on such strings |
| urlencoded.dfy | `Urlencoded` | `URLSearchParams` serialization and parsing in the `application/x-www-form-urlencoded` format of the WHATWG URL Standard (section 5.2), over UTF-8 |
| figma_auth_url.dfy | `FigmaAuthUrl` | the authorization-URL handler |
| supabase_store.dfy | `SupabaseStore` | the rows of `profiles`, the auth users, `figma_tokens` and `cached_files`; the `Database` class; the `.single()` lookup by `figma_id`; the search for a user by email |
| session_token.dfy | `SessionToken` | the regular-expression extraction of the session token from the magic link |
| figma_callback.dfy | `FigmaCallback` | the callback handler |
| cached_order.dfy | `CachedOrder` | the `cached_files` query: one user's rows, newest `last_accessed_at` first, at most 20 |
| figma_files.dfy | `FigmaFiles` | the file-listing handler with its refresh guard and merge loop |
| figma_files_hook.dfy | `FigmaFilesHook` | `formatRelativeTime` and `fetchFiles` |
| auth_page.dfy | `AuthPage` | the sign-in page's effects and handlers |
| canvas_view.dfy | `CanvasView` | zoom and focus mode |

## Behaviour worth knowing

- **Who checks `state`.** The sign-in page compares the returned `state` with the copy in session storage. The callback function never receives `state`. A mismatch shows the toast "Invalid state parameter. Please try again." and clears the URL parameters (`src/pages/Auth.tsx:24-34`).
- **Clearing the stored state.** The page removes the stored state only when the states match. After a mismatch the stored state stays in session storage (`src/pages/Auth.tsx:25-41`). `AuthPage.AuthPage.CallbackEffect` states this.
- **The expiry test.** The file lister refreshes only when `expires_at` is present and strictly earlier than now. A null `expires_at` never refreshes, and neither does one equal to now (`supabase/functions/figma-files/index.ts:46`). `FigmaFiles.NeedsRefresh` states this.
- **Error texts.** Every error response is a 400 whose `error` is a plain message. The messages are kept as constants in the model, for example "Failed to exchange code for token" and "Token expired - please re-authenticate". An exception thrown by a provider request gives its own message instead.
- **The authorization state.** The URL builder uses the caller's `state` whenever it is non-empty, and a fresh UUID otherwise (`supabase/functions/figma-auth-url/index.ts:25`).

## Model

| member | source | states |
|---|---|---|
| Urlencoded.Utf8RoundTrip | supabase/functions/figma-auth-url/index.ts:21-29 | decoding the UTF-8 bytes of any string gives the string back |
| Urlencoded.PercentRoundTrip | supabase/functions/figma-auth-url/index.ts:21-29 | percent-decoding the urlencoded form of any byte sequence gives the bytes back (`+` for space, `%XX` in upper case, unreserved bytes as they are) |
| Urlencoded.StringRoundTrip | supabase/functions/figma-auth-url/index.ts:21-29 | a name or value survives encoding and decoding unchanged |
| Urlencoded.EncodedHasNoDelimiters | supabase/functions/figma-auth-url/index.ts:21-29 | an encoded name or value never contains `&` or `=` |
| Urlencoded.Serialize | supabase/functions/figma-auth-url/index.ts:29 | `params.toString()`: the empty list gives the empty string and only it; otherwise the text starts with the first `name=value` segment |
| Urlencoded.Parse | src/pages/Auth.tsx:19-20 | `URLSearchParams` on a query: the empty query has no parameters, and a query without `&` is the single pair cut at its first `=` |
| Urlencoded.ParseSegment | supabase/functions/figma-auth-url/index.ts:21-29 | one serialized `name=value` segment is non-empty and parses back to its pair |
| Urlencoded.ParseSerialize | supabase/functions/figma-auth-url/index.ts:21-29 | parsing the serialization of any parameter list gives the same list, in the same order |
| Urlencoded.Get | supabase/functions/figma-auth-url/index.ts:32 | `params.get(name)`: nothing exactly when no pair has that name; otherwise the value of the first pair with that name |
| Outcomes.OrElse | supabase/functions/figma-auth-url/index.ts:25 | `state \|\| crypto.randomUUID()`: a non-empty request state is used verbatim, and an absent or empty one is replaced by the generated UUID; the sign-in page's toast texts `error.message \|\| fallback` (src/pages/Auth.tsx lines 78 and 105) take the same form |
| Outcomes.Or | supabase/functions/figma-files/index.ts:100-103 | `a \|\| b` on nullable strings: a truthy `a` is kept, otherwise `b`, so the result is truthy exactly when one of them is |
| FigmaAuthUrl.AuthParams | supabase/functions/figma-auth-url/index.ts:21-27 | there are five parameters, and the `state` one is the given state |
| FigmaAuthUrl.Build | supabase/functions/figma-auth-url/index.ts:14-41 | the response is the 400 "FIGMA_CLIENT_ID not configured" exactly when the client id is absent or empty; an issued URL is `https://www.figma.com/oauth?` followed by the serialized client_id, redirect_uri, scope, state and response_type, and the returned state is the request state when non-empty, the generated one otherwise |
| FigmaAuthUrl.IssuedUrlDecodes | supabase/functions/figma-auth-url/index.ts:21-32 | decoding an issued URL's query gives exactly the five pairs in order, and its `state` parameter is the returned state |
| SupabaseStore.SingleProfile | supabase/functions/figma-callback/index.ts:66-70 | `.single()` yields a profile id exactly when one profile has the `figma_id`, and then it is that profile's id |
| SupabaseStore.FirstWithEmail | supabase/functions/figma-callback/index.ts:91-92 | `find` returns nothing exactly when no user has the email; otherwise the id of the first user that has it |
| SessionToken.RunFrom | supabase/functions/figma-callback/index.ts:134 | `[^&]+` takes a contiguous slice with no `&` that ends at an `&` or at the end, and is non-empty when the first character is not `&` |
| SessionToken.LeftmostMatch | supabase/functions/figma-callback/index.ts:134 | the regular expression matches nowhere, or the result is the leftmost position where it matches |
| SessionToken.Extract | supabase/functions/figma-callback/index.ts:133-135 | the token is null exactly for an absent link or one where `token=` is never followed by a non-`&` character; otherwise it is the maximal non-`&` run after the leftmost such `token=`, never empty and never containing `&` |
| SessionToken.RunIsMaximal | supabase/functions/figma-callback/index.ts:134 | a non-`&` run that stops at `&` or at the end is the one the regular expression captures |
| SessionToken.LeadingTokenExtracted | supabase/functions/figma-callback/index.ts:133-135 | for a link whose first `token=` is followed by a token and then `&` or the end, the extracted session token is that token |
| FigmaCallback.Configured | supabase/functions/figma-callback/index.ts:22 | the credentials count as configured exactly when both are present and non-empty |
| FigmaCallback.FailureText | supabase/functions/figma-callback/index.ts:41-57 | a provider response that is not OK ends with the fixed message, and a thrown request ends with the exception's own message (caught at lines 146-152) |
| FigmaCallback.NewTokenRow | supabase/functions/figma-callback/index.ts:113-119 | the stored row holds the new access and refresh tokens and `expires_at = now + expires_in * 1000` |
| FigmaCallback.ResolveIdentity | supabase/functions/figma-callback/index.ts:65-110 | a linked profile: its id is used, only its email, name and avatar are replaced, and no auth user is created. Otherwise `createUser` is asked for the email, already confirmed, with the provider id, handle and avatar as metadata, and the created user's id is used. If creation fails, the first user with equal email is used when `listUsers` answers. When no such user is found, or `listUsers` failed, the creation error ends the handler with nothing written. In the new-user branch the profile becomes `id = userId` with the provider's `figma_id`, so the lookup by `figma_id` then finds userId |
| FigmaCallback.NewLinkSingle | supabase/functions/figma-callback/index.ts:103-109 | after the upsert of a profile for a provider account no profile was linked to, `.single()` by that `figma_id` finds exactly the upserted id |
| FigmaCallback.Handle | supabase/functions/figma-callback/index.ts:14-153 | a callback never removes a stored token row |
| FigmaCallback.StoreAndLink | supabase/functions/figma-callback/index.ts:112-145 | an unresolved identity fails with its error and no write; otherwise the token table gains exactly the row for userId and keeps every other row, the upsert and magic-link calls follow identity resolution, a magic-link error is a 400 with the tokens still stored, and success returns the user, the link and `SessionToken.Extract` of the link, with no provider token in the body |
| FigmaCallback.HandleFailsEarly | supabase/functions/figma-callback/index.ts:14-57 | missing credentials fail before any call or store access; a code exchange or "me" lookup that fails ends with no write, with the fixed message for a response that is not OK and the exception's message for a thrown request |
| FigmaCallback.HandleSignsIn | supabase/functions/figma-callback/index.ts:14-145 | after both provider calls answer, the handler is identity resolution followed by `StoreAndLink` for the identity it gives, with the exchange and "me" calls logged first |
| FigmaCallback.ResolveKeepsFigmaIdsUnique | supabase/functions/figma-callback/index.ts:65-110 | if no two profiles share a `figma_id` before identity resolution, none do after |
| FigmaCallback.HandleKeepsFigmaIdsUnique | supabase/functions/figma-callback/index.ts:14-153 | a callback never leaves two profiles linked to the same provider account |
| FigmaCallback.UniqueLinkAtMostOne | supabase/functions/figma-callback/index.ts:66-70 | when `figma_id`s are unique, at most one profile matches the lookup |
| FigmaCallback.ResolveUser | supabase/functions/figma-callback/index.ts:65-110 | the branches on `userId` against the database return the identity `ResolveIdentity` gives and leave the tables it gives; tokens and cached files stay as they were |
| FigmaCallback.HandleCallback | supabase/functions/figma-callback/index.ts:14-153 | the handler against the database: the new profiles, auth users and tokens, the call log and the response are those `Handle` gives; `cached_files` is untouched |
| FigmaCallback.SignInUser | supabase/functions/figma-callback/index.ts:65-145 | identity resolution and then the token upsert and magic link against the database, as `StoreAndLink` gives them for `ResolveIdentity`'s identity |
| FigmaCallback.StoreTokensAndLink | supabase/functions/figma-callback/index.ts:112-145 | the token upsert and magic link against the database, as `StoreAndLink` gives them |
| CachedOrder.OfUser | supabase/functions/figma-files/index.ts:80 | `.eq("user_id", uid)` keeps each of that user's rows exactly as often as the table holds it, and no other row |
| CachedOrder.Insert | supabase/functions/figma-files/index.ts:81 | inserting into a list ordered by recency keeps it ordered and adds exactly that row |
| CachedOrder.SortByRecency | supabase/functions/figma-files/index.ts:81 | `.order("last_accessed_at", { ascending: false })` is a permutation, newest first |
| CachedOrder.PrependOrdered | supabase/functions/figma-files/index.ts:81 | a row no older than the head of a recency-ordered list can go in front and the list stays ordered |
| CachedOrder.Recent | supabase/functions/figma-files/index.ts:77-82 | at most 20 of the user's rows, newest first, as many as there are up to 20, and no row left out is newer than the last one kept |
| CachedOrder.TakeMostRecent | supabase/functions/figma-files/index.ts:82 | `.limit(20)` on a recency-ordered list keeps it ordered and leaves out only rows no newer than the last one kept |
| CachedOrder.SameOwner | supabase/functions/figma-files/index.ts:80-82 | the rows kept after sorting and limiting all belong to the caller |
| FigmaFiles.FirstBearer | supabase/functions/figma-files/index.ts:25 | the leftmost occurrence of `Bearer `, or none |
| FigmaFiles.StripBearer | supabase/functions/figma-files/index.ts:25 | `replace("Bearer ", "")` removes only the first occurrence, and leaves a header with none unchanged |
| FigmaFiles.Caller | supabase/functions/figma-files/index.ts:15-30 | no header, or an empty one, gives no caller; otherwise the caller is what the JWT check gives for the header with its first `Bearer ` removed |
| FigmaFiles.NeedsRefresh | supabase/functions/figma-files/index.ts:46 | a null `expires_at` never refreshes; a present one refreshes exactly when it is strictly earlier than now |
| FigmaFiles.Refreshed | supabase/functions/figma-files/index.ts:65-73 | the refreshed row holds the new access token, the new refresh token or the old one when the response has none, and `expires_at = now + expires_in * 1000` |
| FigmaFiles.Summarize | supabase/functions/figma-files/index.ts:96-116 | `key` and `is_bookmarked` always come from the cache; a fetched file takes the provider's name, thumbnail and editor type, each falling back to the cached value when falsy, and the provider's `last_modified`; a thrown fetch gives the cached entry with `last_modified = last_accessed_at` |
| FigmaFiles.Merged | supabase/functions/figma-files/index.ts:89-119 | there are never more listed files than cached rows |
| FigmaFiles.FetchEffects | supabase/functions/figma-files/index.ts:90-94 | one file request per cached row, in order, each with the same access token |
| FigmaFiles.Listing | supabase/functions/figma-files/index.ts:121-126 | `message` is present exactly when `files` is empty, and it is the "No files yet" hint |
| FigmaFiles.Handle | supabase/functions/figma-files/index.ts:14-136 | the set of users with a token row is never changed |
| FigmaFiles.Serve | supabase/functions/figma-files/index.ts:43-126 | once the caller is known, the set of users with a token row is never changed |
| FigmaFiles.HandleRejectsCaller | supabase/functions/figma-files/index.ts:15-41 | a missing header, an invalid user or no token row is a 400 with its message, with no call and no write |
| FigmaFiles.HandleFailureChangesNothing | supabase/functions/figma-files/index.ts:130-136 | every failure is a 400 that leaves the token table unchanged and requests no file |
| FigmaFiles.ServeFailureChangesNothing | supabase/functions/figma-files/index.ts:43-74 | the same, once the caller is known |
| FigmaFiles.HandleRefreshesExpiredOnly | supabase/functions/figma-files/index.ts:46-63 | the refresh endpoint is called exactly when the caller's `expires_at` is present and strictly earlier than now, and first; a non-ok refresh fails with "Token expired - please re-authenticate" and an exception with its message, both with the row unchanged |
| FigmaFiles.ServeRefreshesExpiredOnly | supabase/functions/figma-files/index.ts:43-74 | the same, once the caller is known |
| FigmaFiles.HandleChangesOnlyCallerRow | supabase/functions/figma-files/index.ts:46-74 | a token row changes only for the caller, only after an expired token and an accepted refresh, and then to the refreshed row |
| FigmaFiles.HandleUsesCurrentToken | supabase/functions/figma-files/index.ts:43-94 | with a token that has not expired, nothing is written and every file request carries the stored access token; after an accepted refresh, the caller's row becomes the refreshed row (new access token, new refresh token or else the old one, `expires_at = now + expires_in * 1000`) and every file request carries the new access token |
| FigmaFiles.HandleListsRecentFiles | supabase/functions/figma-files/index.ts:77-126 | a listing requests the caller's 20 most recent cached files in order, every request with the access token stored after the call, and lists what those requests give |
| FigmaFiles.ServeListsRecentFiles | supabase/functions/figma-files/index.ts:77-126 | the same, once the caller is known |
| FigmaFiles.MergedKeepsOrder | supabase/functions/figma-files/index.ts:89-118 | entry k of the listing summarises the k-th kept cached row; kept positions increase, so the cached order is kept; a row is left out exactly when its fetch answers "not OK" |
| FigmaFiles.EmptyListing | supabase/functions/figma-files/index.ts:89-126 | the listing is empty exactly when every fetch answers "not OK" (in particular when there are no cached rows) |
| FigmaFiles.MergeCached | supabase/functions/figma-files/index.ts:86-119 | the `for` loop pushes exactly the merged listing and makes one request per row in order |
| FigmaFiles.HandleFiles | supabase/functions/figma-files/index.ts:14-136 | the handler against the database: the token table, the call log and the response are those `Handle` gives, and no other table changes |
| FigmaFiles.ServeUser | supabase/functions/figma-files/index.ts:43-126 | the handler after authentication against the database, as `Serve` gives it |
| FigmaFilesHook.DigitChar | src/hooks/useFigmaFiles.tsx:75 | the character of a decimal digit |
| FigmaFilesHook.Decimal | src/hooks/useFigmaFiles.tsx:75-80 | a count prints as a non-empty string of digits with no leading zero |
| FigmaFilesHook.DecimalRoundTrip | src/hooks/useFigmaFiles.tsx:75-80 | reading a printed count back gives the count |
| FigmaFilesHook.DecimalInjective | src/hooks/useFigmaFiles.tsx:75-80 | different counts print differently |
| FigmaFilesHook.Classify | src/hooks/useFigmaFiles.tsx:68-82 | the buckets partition the ages: under a minute, including future times, is "just now"; 1 to 59 minutes; 1 to 23 hours; one day is "yesterday"; 2 to 6 days; one week is "last week"; 2 or 3 weeks; from 28 days, the date. Each count is the whole number of units elapsed |
| FigmaFilesHook.Render | src/hooks/useFigmaFiles.tsx:76 | the hour label ends in "hours ago" exactly when the count is above 1 |
| FigmaFilesHook.FormatRelativeTime | src/hooks/useFigmaFiles.tsx:65-83 | the floor-division chain gives the label of the bucket `Classify` states by bounds |
| FigmaFilesHook.MinutesLabelCountsMinutes | src/hooks/useFigmaFiles.tsx:69-75 | between one minute and one hour the label is "N min ago" with N the whole minutes elapsed, 1 ≤ N ≤ 59 |
| FigmaFilesHook.RecentLabelsIgnoreDate | src/hooks/useFigmaFiles.tsx:74-82 | under four weeks the label never shows the date |
| FigmaFilesHook.FetchError | src/hooks/useFigmaFiles.tsx:24-46 | `fetchFiles` ends without error exactly when there is a session and the function answered with no error; no session gives "Not authenticated", a failed call gives its message, and an error in the body gives that error |
| FigmaFilesHook.FilesHook.constructor | src/hooks/useFigmaFiles.tsx:14-16 | the files start empty, loading, and with no error |
| FigmaFilesHook.FilesHook.FetchFiles | src/hooks/useFigmaFiles.tsx:19-55 | `isLoading` ends false on every path; no session means no invocation; on error the files keep their previous value and the error is shown as a toast; on success the files become `data.files`, or [] when absent |
| FigmaFilesHook.SentHeaderCarriesToken | src/hooks/useFigmaFiles.tsx:29-33 | the `Bearer` header the hook sends gives the file lister back exactly the session token, so it serves the user the JWT check finds for that token |
| AuthPage.CallbackDecision | src/pages/Auth.tsx:19-34 | the callback is accepted exactly when `code` and `state` are non-empty, no callback has started and the state equals the stored one; it is rejected exactly when the states differ; nothing happens once a callback has started |
| AuthPage.AuthPage.constructor | src/pages/Auth.tsx:11-15 | the page mounts with the guard off, both flags false and nothing invoked |
| AuthPage.AuthPage.CallbackEffect | src/pages/Auth.tsx:18-45 | a mismatch clears the parameters and shows the error, leaving the guard off and the stored state in place; a match sets the guard and the spinner, clears the parameters and the stored state, and invokes the callback exactly once with the code; the callback is invoked at most once per page |
| AuthPage.AuthPage.CallbackSettled | src/pages/Auth.tsx:54-83 | a failure clears the spinner but never the guard; a magic link is followed; otherwise the welcome toast is shown and the page goes to "/" |
| AuthPage.AuthPage.StartFigmaAuth | src/pages/Auth.tsx:85-110 | the generated state is stored, then sent to the URL builder with the `/auth` redirect URI; an error resets `isAuthenticating`; a returned URL is followed |
| AuthPage.AuthPage.RedirectEffect | src/pages/Auth.tsx:48-52 | the page goes to "/" only when there is a user, loading is over and no callback is processing |
| AuthPage.StoredStateAcceptsReturn | src/pages/Auth.tsx:89-94 | the state the page stores is the `state` of the URL the builder issues, so when the provider returns it beside a code, the code is accepted |
| AuthPage.ForeignStateRejected | src/pages/Auth.tsx:24-34 | a returned state other than the stored one is rejected, whatever the code |
| CanvasView.ZoomedIn | src/components/canvas/CanvasView.tsx:29 | zooming in adds 25 below 175 and gives 200 from 175 up, so at 200 it does nothing; a reachable level stays reachable |
| CanvasView.ZoomedOut | src/components/canvas/CanvasView.tsx:30 | zooming out takes 25 above 75 and gives 50 from 75 down, so at 50 it does nothing; a reachable level stays reachable |
| CanvasView.ZoomInOutRestores | src/components/canvas/CanvasView.tsx:29-30 | in then out restores every reachable level up to 175; out then in restores every one from 75 |
| CanvasView.ZoomInSaturates | src/components/canvas/CanvasView.tsx:29 | n steps in from a reachable level give min(z + 25n, 200), always reachable |
| CanvasView.CanvasView.constructor | src/components/canvas/CanvasView.tsx:26-27 | zoom starts at 100 with focus mode off and the toolbar visible |
| CanvasView.CanvasView.HandleZoomIn | src/components/canvas/CanvasView.tsx:29 | `min(z + 25, 200)`, keeping zoom within [50, 200] and a multiple of 25 |
| CanvasView.CanvasView.HandleZoomOut | src/components/canvas/CanvasView.tsx:30 | `max(z - 25, 50)`, keeping zoom within [50, 200] and a multiple of 25 |
| CanvasView.CanvasView.HandleZoomReset | src/components/canvas/CanvasView.tsx:31 | zoom returns to 100 from any level |
| CanvasView.CanvasView.ToggleFocus | src/components/canvas/CanvasView.tsx:78-107 | the toggle flips focus mode, and the toolbar is visible exactly when focus mode is off |

## Left out

- HTTP, JSON, CORS preflight (`OPTIONS`), response headers and logging: the handlers take their inputs and give a response value with its status.
- The outside services themselves. The provider endpoints, the auth admin API, the JWT check, `crypto.randomUUID`, `Date.now` and `new Date()` are inputs. Each file fetch in the listing is a function of the file key and the access token.
- Store write results. The code ignores the errors of the profile update, profile upsert, token upsert and token update, so the model treats those writes as always succeeding. The code also treats a failed `cached_files` read as an empty list; the model always reads the table.
- The configuration values `SUPABASE_URL` and `SUPABASE_SERVICE_ROLE_KEY`: they are only passed to the client library.
- `FIGMA_CLIENT_ID` and `FIGMA_CLIENT_SECRET` in the refresh request of the lister are used unchecked and are not modelled.
- The request bodies of the code exchange and the refresh. The log records the code and redirect URI, and the refresh token, but not the form encoding.
- Pagination of `auth.admin.listUsers`: when the call answers, the model searches the whole user list, where the code sees only the first page. A failed call is an input, `listUsersOk`, and then nobody is found.
- Database uniqueness enforcement: `FigmaCallback.HandleKeepsFigmaIdsUnique` proves the handler itself never breaks uniqueness of `figma_id`.
- Concurrency between simultaneous requests, such as refresh races and double-submitted callbacks: each handler is one sequential run.
- Dates as text. Times are integer milliseconds, so `toISOString`, ISO parsing of `expires_at` and `toLocaleDateString` (an input of `FormatRelativeTime`) are not modelled. So are an unparseable date string, a non-numeric `expires_in`, and the `RangeError` either would raise.
- Malformed bodies. A body that is not JSON, or whose fields have other types, is not modelled: a null `data` in the hook, or a missing `access_token` after a refresh. An exchange or "me" body that cannot be read is an exception with a message, like a failed request.
- Urlencoded.Utf8Decode: malformed UTF-8 gives one U+FFFD per offending byte rather than per maximal ill-formed subsequence. No serialized parameter list is malformed, so the round trips do not depend on it.
- The toasts' titles and variants: only their descriptions are kept, as a log.
- React scheduling, re-renders, StrictMode double effects and the intermediate `isLoading = true` render. `FetchFiles` and the page handlers are modelled as single steps. `sessionStorage` and `window.location` are fields of the page.
- All rendering and the presentational components, such as the zoom readout, the loader, the file cards and the static sample data.
- FigmaFiles.Serve: the cached-files query runs before the refresh in the model and after it in the code. The query does not depend on the refresh, so the result is the same.
- CachedOrder.SortByRecency: the database leaves the order of rows with equal `last_accessed_at` open. The model fixes one, table order, by sorting stably, so which of several equally recent rows make the cut at 20 is the model's choice.
- FigmaFiles.Handle: the clock is one input, `now`, used both for the expiry test (`new Date()`, line 46) and for the new expiry (`Date.now()`, line 72). The code reads the clock twice, and the two readings can differ by the time the refresh request takes.
- FigmaCallback.ResolveIdentity: the auth user table keeps only each user's id and email. The confirmation flag and the `user_metadata` of the `createUser` request are recorded in its `CreateUser` effect, not in the stored user, since nothing in the core reads them back.
- Urlencoded: strings are sequences of Unicode scalar values. A JavaScript string is a sequence of UTF-16 code units and can hold a lone surrogate, which `encodeURIComponent` and `URLSearchParams` reject or replace; such strings are not modelled.
