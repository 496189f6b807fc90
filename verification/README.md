# Chess Dojo scheduler — a Dafny model of its core logic

This project models the deterministic core of the Chess Dojo scheduler in
Dafny 4.11 and proves properties of that model. The scheduler is a React
front end and a set of Go lambdas over DynamoDB. The core covers:

- **Meeting cache** (`frontend/src/api/Cache.tsx`): a map from meeting id to
  meeting.
  - Lookup, snapshot and filter.
  - Whole-value upsert of one meeting or of a batch.
  - The one-shot `useMeetings` effect. It is guarded by a request tracker and
    sorts meetings by start time before storing them.
- **Cursor-pagination drains**: `listCourses` and `listAllCourses` in
  `frontend/src/api/courseApi.ts`, and the ratings `Handler` scan.
  - The paged source is a finite sequence of responses.
  - Each request passes back the previous `lastEvaluatedKey`.
  - The loop stops on an error or an empty key.
- **Course URLs and credentials**: `getCourse` and `purchaseCourse` choose
  the public or the member endpoint, and the bearer header, from the token.
- **Activity timeline** (`ActivityTimeline.tsx`):
  - `getTimeSpent` formatting;
  - the reveal-then-fetch "load more" rule and the list slice;
  - button visibility and the calendar's trigger for loading older entries;
  - entry names and calendar events;
  - the loading, empty, list and calendar screens.
- **News feed "load more" button** (`LoadMoreButton.tsx`): the three
  variants chosen from `startKey` and `since`, where an empty string counts
  as absent.
- **Meeting page** (`MeetingPage.tsx`):
  - found, loading or not found;
  - the opponent card;
  - the start and location defaults;
  - the canceled alert against the cancel button;
  - the two steps of `onCancel`.
- **Auth provider** (`Auth.tsx`):
  - `useRequiredAuth`, `useFreeTier` and the `updateUser` merge;
  - the Cognito response branch, sign-in and sign-out;
  - the guarded subscription access check;
  - the `RequireAuth` route decision.
- **Small derivations**:
  - the checkout-session-id store in local storage;
  - notification titles and descriptions;
  - the upsell dialog's reordering and truncation of bullet points.
- **Back end**:
  - the nightly ratings refresh: keep-on-failure per source, change
    detection, and batches of at most 25;
  - game creation: validation, type dispatch and the `getGames`
    aggregation;
  - the DynamoDB update expressions of the statistics records;
  - the keys of the tournament table.

Every remote call is a parameter of the model:
- axios, Amplify and Cognito;
- the AWS SDK;
- the rating fetchers;
- the Lichess importers;
- `GetGame` and `BatchPutGames`.

A call that can be made many times is a finite sequence of answers. A call
made once is a function value.

The request tracker of `api/Request` is not part of this model. `request.dfy`
keeps only the abstract state its callers rely on:
- sent or not;
- loading, succeeded or failed;
- `onStart`, `onSuccess` and `onFailure`.

Files:
- Shared helpers:
  - `wrappers.dfy`: `Option` and `Result`.
  - `strings.dfy`: decimal text, ASCII upper case, `TrimSpace`, and
    lexicographic order for ISO dates.
  - `seqs.dfy`: flatten, filter, count and remove.
  - `request.dfy`: the request tracker state.
  - `pagination.dfy`: the generic drain.
- One module per source file: `meeting_cache.dfy`, `course_api.dfy`,
  `activity_timeline.dfy`, `load_more_button.dfy`, `meeting_page.dfy`,
  `auth.dfy`, `checkout_storage.dfy`, `notification.dfy`, `upsell.dfy`,
  `ratings_update.dfy`, `game_create.dfy`, `stats.dfy`, `tournament.dfy`.

## Model

| member | source | states |
|---|---|---|
| MeetingCache.GetMeeting | frontend/src/api/Cache.tsx:42-47 | a lookup finds a meeting exactly when its id is cached, and then returns the cached meeting |
| MeetingCache.GetMeetings | frontend/src/api/Cache.tsx:49 | the snapshot has one value per cached id; every value is cached and every cached meeting appears; in a store that keys meetings by their own id no id repeats |
| MeetingCache.FilterMeetings | frontend/src/api/Cache.tsx:51-56 | every cached meeting that satisfies the filter appears and nothing else does; there are no more results than cached ids; in a store that keys meetings by their own id no meeting appears twice |
| Seqs.FilterAllPass | frontend/src/api/Cache.tsx:51-56 | `Array.prototype.filter` keeps a sequence whose every element passes unchanged, so filtering the cache's filtered meetings again changes nothing |
| MeetingCache.PutMeeting | frontend/src/api/Cache.tsx:58-66 | after an upsert the id maps to the new meeting as a whole (no field merge); the key set gains only that id; every other id keeps its meeting |
| MeetingCache.BatchMapContents | frontend/src/api/Cache.tsx:70-76 | the map built by the reduce has exactly the batch's ids, each mapped to the last meeting in the batch that carries it |
| MeetingCache.PutMeetingsLastWins | frontend/src/api/Cache.tsx:68-83 | after a batched upsert the keys are the old keys plus the batch's ids; each batch id maps to its last occurrence; ids outside the batch read as before |
| MeetingCache.PutMeetingsIsFold | frontend/src/api/Cache.tsx:58-83 | a batched upsert equals upserting its meetings one at a time, left to right |
| MeetingCache.PutMeetingIdempotent | frontend/src/api/Cache.tsx:60-63 | upserting the same meeting twice gives the same store as once |
| MeetingCache.PutMeetingsIdempotent | frontend/src/api/Cache.tsx:77-80 | upserting the same batch twice gives the same store as once |
| MeetingCache.PutPreservesWellFormed | frontend/src/api/Cache.tsx:58-83 | both upserts keep every meeting stored under its own id |
| MeetingCache.NeverPutIsUndefined | frontend/src/api/Cache.tsx:40-47 | from the initial empty store, an id that no upsert carried reads as undefined |
| MeetingCache.Insert | frontend/src/api/Cache.tsx:114 | inserting into a start-time-sorted list keeps it sorted and adds exactly that meeting |
| MeetingCache.SortByStart | frontend/src/api/Cache.tsx:114 | the sorted list is ascending by `startTime` and is a permutation of the fetched meetings |
| MeetingCache.MeetingsEffect | frontend/src/api/Cache.tsx:108-122 | `listMeetings` is called exactly when the request is unsent, and the request is sent afterwards; a failure leaves the store alone and records the error; a success stores a start-time-sorted permutation of the answer through the batched upsert |
| MeetingCache.NoCallOnceSent | frontend/src/api/Cache.tsx:109 | once the request is sent, any number of effect runs make no call and change nothing |
| MeetingCache.AtMostOneListCall | frontend/src/api/Cache.tsx:108-122 | over any sequence of effect runs, `listMeetings` is called at most once, and never when the request starts out sent |
| Pagination.StopIndex | frontend/src/api/courseApi.ts:109-119 | the do-while ends at the first response that is an error or carries an empty or absent key; every earlier response continues it |
| Pagination.Drain | frontend/src/api/courseApi.ts:105-122 | the first request carries the caller's start key and each later one the previous `lastEvaluatedKey`, which is non-empty; requests stop at the stop index; the result is the concatenation of the pages' items in order, or the stopping error |
| Pagination.EmptyPageContinues | frontend/src/api/courseApi.ts:117-119 | a page with no items but a non-empty key does not end the loop and adds no items |
| CourseApi.ListCourses | frontend/src/api/courseApi.ts:105-122 | every request goes to the member endpoint for the course type with the bearer header; the keys and the result are those of the drain |
| CourseApi.ListAllCourses | frontend/src/api/courseApi.ts:129-143 | the same drain against the public endpoint, with no Authorization header on any request |
| CourseApi.GetCourse | frontend/src/api/courseApi.ts:74-91 | a credential is sent exactly when the URL is outside the public API; with a token the URL is `/courses/{type}/{id}` and the header `Bearer` plus the token; without one the URL is `/public/courses/{type}/{id}` followed by the `checkoutId` query, reading `undefined` when the id is absent |
| CourseApi.CoursesPathIsNotPublic | frontend/src/api/courseApi.ts:80-86 | a member course URL never lies under the public API |
| CourseApi.PublicPathIsPublic | frontend/src/api/courseApi.ts:88-90 | a public course URL lies under the public API |
| CourseApi.PurchaseCourse | frontend/src/api/courseApi.ts:158-181 | the header is present exactly with a token, and exactly on non-public URLs; the URL is the member or public courses root, then `{type}/{id}/purchase`; it ends with `?purchaseOption=` and the option when the option is non-empty, and with `/purchase` otherwise |
| CourseApi.PurchaseCredential | frontend/src/api/courseApi.ts:164-170 | the purchase path is outside the public API exactly when a token is given |
| ActivityTimeline.JsRem | frontend/src/profile/activity/ActivityTimeline.tsx:33 | JavaScript `%`: the remainder has the sign of the dividend, is smaller than the divisor in magnitude, and completes truncated division |
| ActivityTimeline.FloorDiv | frontend/src/profile/activity/ActivityTimeline.tsx:32 | `Math.floor(a / b)`: the greatest quotient whose multiple does not exceed the dividend |
| ActivityTimeline.GetTimeSpent | frontend/src/profile/activity/ActivityTimeline.tsx:28-38 | the text is empty exactly when no minutes were spent |
| ActivityTimeline.TimeSpentPositive | frontend/src/profile/activity/ActivityTimeline.tsx:28-38 | for a positive time the text is `{h}h {m}m` with `m < 60` and `60h + m` equal to the minutes spent |
| ActivityTimeline.SecondZeroTestIsDead | frontend/src/profile/activity/ActivityTimeline.tsx:34-36 | once the minutes are non-zero, hours and minutes are never both zero, so the second empty-string return cannot be reached |
| ActivityTimeline.TimeSpentNegativeMismatch | frontend/src/profile/activity/ActivityTimeline.tsx:28-38 | as written, -90 minutes reads `-2h -30m`, whose parts add up to -150 minutes |
| ActivityTimeline.GetTimeSpentCorrected | frontend/src/profile/activity/ActivityTimeline.tsx:28-38 | the corrected text is empty exactly when no minutes were spent |
| ActivityTimeline.TimeSpentCorrectedAddsUp | frontend/src/profile/activity/ActivityTimeline.tsx:28-38 | the corrected parts carry the sign of the total, the minutes are under 60 in magnitude, `60h + m` is the minutes spent, and positive times read as the original does |
| ActivityTimeline.HandleLoadMore | frontend/src/profile/activity/ActivityTimeline.tsx:92-98 | entries already cached are revealed 25 more at a time exactly when some are still hidden; only otherwise is `onLoadMore` called |
| ActivityTimeline.Visible | frontend/src/profile/activity/ActivityTimeline.tsx:163 | the list shows a prefix of the entries, `min(numShown, entries)` long |
| ActivityTimeline.RevealExtendsVisible | frontend/src/profile/activity/ActivityTimeline.tsx:92-98 | a reveal strictly extends the shown prefix, to `min(numShown + 25, entries)` |
| ActivityTimeline.ButtonFetchesOnlyWithMore | frontend/src/profile/activity/ActivityTimeline.tsx:172-178 | when the visible button fetches instead of revealing, the server has more entries |
| ActivityTimeline.RevealsReachEverything | frontend/src/profile/activity/ActivityTimeline.tsx:92-98 | enough clicks on the button reveal every cached entry |
| ActivityTimeline.OnSelectedDateChange | frontend/src/profile/activity/ActivityTimeline.tsx:229-238 | choosing a date loads older entries only when more exist and some are loaded, and never when the date is at or after the last loaded entry |
| ActivityTimeline.CalendarLoadsIffBeforeAll | frontend/src/profile/activity/ActivityTimeline.tsx:229-238 | with the entries newest first, choosing a date loads older entries exactly when more exist and the date precedes every loaded entry |
| ActivityTimeline.GetName | frontend/src/profile/activity/ActivityTimeline.tsx:305-315 | a game submission is `Published Game`, a graduation is `Graduation: ` and the cohort, and any other requirement shows its name |
| ActivityTimeline.CalendarEvents | frontend/src/profile/activity/ActivityTimeline.tsx:195-227 | one event per entry, in order, with its id, name, start and entry; game submissions are recoloured as games; a joined event comes last exactly when the user has a creation date |
| ActivityTimeline.CreatedAtCohort | frontend/src/profile/activity/ActivityTimeline.tsx:53-56 | the joined card shows the first graduation cohort, or the current cohort if the user never graduated |
| ActivityTimeline.Render | frontend/src/profile/activity/ActivityTimeline.tsx:123-137 | the loading page exactly while loading with no entries; `No events yet` exactly when idle with no entries; the list in list mode with entries, showing the visible prefix and a button exactly when more exist or remain hidden |
| LoadMoreButton.SelectVariant | frontend/src/newsfeed/list/LoadMoreButton.tsx:20-65 | a non-empty start key selects `Load More`, spinning exactly while loading; otherwise a non-empty `since` selects the caught-up variant carrying it; otherwise `No More Posts` |
| LoadMoreButton.ClickLoadsMoreIff | frontend/src/newsfeed/list/LoadMoreButton.tsx:20-65 | the rendered button can load more exactly when a start key or a `since` date is set |
| LoadMoreButton.LoadingOnlyInLoadMore | frontend/src/newsfeed/list/LoadMoreButton.tsx:20-34 | without a start key the loading state changes nothing on screen |
| LoadMoreButton.EmptyIsAbsent | frontend/src/newsfeed/list/LoadMoreButton.tsx:20-34 | an empty start key or `since` renders as if it were absent |
| MeetingPage.Lookup | frontend/src/meeting/MeetingPage.tsx:41-52 | a cached meeting is shown; an uncached one shows the loading page exactly while the cache loads, and `not found` otherwise |
| MeetingPage.Opponent | frontend/src/meeting/MeetingPage.tsx:78-86 | the opponent is the first participant, unless that is the viewer, in which case it is the owner's name, display name and cohorts; there is none without participants |
| MeetingPage.OpponentIsNotViewer | frontend/src/meeting/MeetingPage.tsx:78-86 | when the viewer does not own the meeting, the opponent card never shows the viewer |
| MeetingPage.DisplayStart | frontend/src/meeting/MeetingPage.tsx:74 | the booked start when set, otherwise the availability's start |
| MeetingPage.DisplayLocation | frontend/src/meeting/MeetingPage.tsx:182 | the location is never empty, and a set location is shown as is |
| MeetingPage.AlertXorCancelButton | frontend/src/meeting/MeetingPage.tsx:128-153 | the page shows exactly one of the canceled alert and the cancel button |
| MeetingPage.StartCancel | frontend/src/meeting/MeetingPage.tsx:55-56 | starting a cancel marks the request loading, which disables closing the dialog, and changes nothing else |
| MeetingPage.SettleCancel | frontend/src/meeting/MeetingPage.tsx:58-71 | after the answer the dialog can close again; a success stores the returned meeting, closes the dialog and records success; a failure records the error and keeps the cache and dialog |
| MeetingPage.CancelOutcome | frontend/src/meeting/MeetingPage.tsx:55-72 | after a successful cancel that returns the page's meeting, looking up the page's id shows the returned meeting; after a failed one the cache and dialog are as before |
| Auth.Spread | frontend/src/auth/Auth.tsx:243-247 | each field the update sets, the username included, replaces the user's; every field it leaves unset is kept |
| Auth.UpdateUser | frontend/src/auth/Auth.tsx:243-247 | without a user nothing changes; with one, the user is merged with the update and the status is kept |
| Auth.UpdateUserIdempotent | frontend/src/auth/Auth.tsx:243-247 | applying an update twice equals applying it once, and an empty update changes nothing |
| Auth.UseRequiredAuth | frontend/src/auth/Auth.tsx:186-194 | yields the user exactly when one is present and authenticated, and the fixed error otherwise |
| Auth.UseFreeTier | frontend/src/auth/Auth.tsx:196-198 | free tier exactly unless a user is present and subscribed |
| Auth.CognitoCall | frontend/src/auth/Auth.tsx:204-223 | purchases are synced, with all stored checkout ids, exactly when some are stored; otherwise the user is fetched; the id token is sent either way |
| Auth.HandleCognitoResponse | frontend/src/auth/Auth.tsx:204-223 | fails exactly when the back-end call fails; on success the user parsed from the backend's record and the session's token is authenticated, and the checkout ids are cleared only after a sync |
| Auth.GetCurrentUser | frontend/src/auth/Auth.tsx:225-237 | never ends loading; authenticated exactly when the session and the back-end call both succeed; otherwise unauthenticated with the user and storage kept |
| Auth.Signin | frontend/src/auth/Auth.tsx:249-270 | succeeds exactly when the result is authenticated; a failed sign-in is unauthenticated and returns its error; a successful one continues as `getCurrentUser` |
| Auth.Signout | frontend/src/auth/Auth.tsx:272-281 | a successful sign-out leaves no user and unauthenticated; a failed one changes nothing |
| Auth.SignedOutIsAnonymous | frontend/src/auth/Auth.tsx:272-281 | after signing out the required-auth hook fails and the viewer is on the free tier |
| Auth.AccessEffect | frontend/src/auth/Auth.tsx:317-338 | the access check runs exactly when authenticated with an unsent request; it sends the request; success subscribes the user; a 403 moves them to the free tier; any other failure keeps the subscription |
| Auth.NoAccessCheckOnceSent | frontend/src/auth/Auth.tsx:317-320 | once the request is sent, effect runs make no call and change nothing |
| Auth.AccessCheckedAtMostOnce | frontend/src/auth/Auth.tsx:317-338 | over any sequence of effect runs the access check is made at most once |
| Auth.AccessCheckDecidesFreeTier | frontend/src/auth/Auth.tsx:322-336 | a granted check takes the user off the free tier and a 403 puts them on it |
| Auth.RequireAuth | frontend/src/auth/Auth.tsx:340-357 | loading while the status loads; otherwise a redirect carrying the encoded path and search when unauthenticated or without a user; otherwise the profile creator or the outlet, by whether the profile exists |
| Auth.OutletHasRequiredAuth | frontend/src/auth/Auth.tsx:340-357 | whatever the outlet renders can use the required-auth hook safely |
| CheckoutStorage.GetAll | frontend/src/courses/localStorage.ts:28-31 | the stored map, or an empty map when nothing is stored |
| CheckoutStorage.GetCheckoutSessionId | frontend/src/courses/localStorage.ts:3-15 | empty for an empty or absent course, or one without an entry; otherwise that course's checkout id |
| CheckoutStorage.SetCheckoutSessionId | frontend/src/courses/localStorage.ts:17-26 | a no-op when either argument is empty; otherwise the course maps to the id and no other course gains or loses an entry |
| CheckoutStorage.Clear | frontend/src/courses/localStorage.ts:33-35 | after clearing, all ids read as the empty map |
| CheckoutStorage.GetAfterSet | frontend/src/courses/localStorage.ts:13-25 | reading a course after setting it returns the id that was set |
| CheckoutStorage.SetKeepsOthers | frontend/src/courses/localStorage.ts:23-25 | setting one course does not change what any other course reads |
| CheckoutStorage.GetAgreesWithGetAll | frontend/src/courses/localStorage.ts:3-31 | the single read agrees with looking the course up in all ids |
| CheckoutStorage.ClearForgetsAll | frontend/src/courses/localStorage.ts:28-35 | after clearing, every course reads as empty |
| Strings.Interpolate | frontend/src/database/notification.ts:40 | a template string shows a present value as is and a missing one as `undefined` |
| Notification.Header | frontend/src/database/notification.ts:40 | a header is found exactly when the metadata, its headers and the named entry all exist |
| Notification.GetDescription | frontend/src/database/notification.ts:44-49 | a game comment is described by the fixed sentence |
| Notification.TitleOfNamedGame | frontend/src/database/notification.ts:37-42 | a game comment whose headers name both players is titled `White - Black` |
| Notification.TitleWithoutMetadata | frontend/src/database/notification.ts:37-42 | without metadata the title is `undefined - undefined` |
| Notification.TextIgnoresIdAndTime | frontend/src/database/notification.ts:37-49 | neither title nor description depends on the id or the update time |
| Upsell.BulletPoints | frontend/src/upsell/UpsellDialog.tsx:42-50 | without a current action the list is the given or default one; with one, it comes first and is followed by the list with every copy of it removed, in order |
| Upsell.ReorderCounts | frontend/src/upsell/UpsellDialog.tsx:45-50 | the current action occurs once; the length is one plus the list's length minus its copies; every other item keeps its count |
| Upsell.Rendered | frontend/src/upsell/UpsellDialog.tsx:68-71 | the first up to six bullet points, in order, always followed by `And more!` |
| Upsell.DefaultRendering | frontend/src/upsell/UpsellDialog.tsx:22-71 | by default the first six of the seven actions are shown, so the last default action is not |
| Upsell.CurrentActionListedFirst | frontend/src/upsell/UpsellDialog.tsx:45-71 | the current action is the first item on screen, whether or not it was in the list |
| RatingsUpdate.KeepOnFailure | backend/user/ratings/update/main.go:31-38 | a blank identifier or a failed fetch keeps the current rating, and a successful fetch replaces it |
| RatingsUpdate.NewRatingCases | backend/user/ratings/update/main.go:31-74 | for each of the five sources, an identifier that trims to nothing or a failing fetch keeps that source's rating; otherwise the fetched rating is taken |
| RatingsUpdate.ChangedIffSomeSourceDiffers | backend/user/ratings/update/main.go:76-80 | a user is changed exactly when some source's new rating differs from its current one |
| RatingsUpdate.BlankIdentifiersNeverChange | backend/user/ratings/update/main.go:31-80 | a user with no identifiers is never changed |
| RatingsUpdate.Refreshed | backend/user/ratings/update/main.go:82-86 | an updated user carries all five new ratings and is otherwise the same user |
| RatingsUpdate.ChangedUsersAppend | backend/user/ratings/update/main.go:29-88 | the changed users of two lists in a row are those of the first followed by those of the second |
| RatingsUpdate.Batches | backend/user/ratings/update/main.go:90-106 | the batches, concatenated, are the changed users in order; each holds 1 to 25 users and all but the last hold exactly 25 |
| RatingsUpdate.UpdateUsers | backend/user/ratings/update/main.go:21-107 | unchanged users are left as they were; changed users get their new ratings; the batches written are the changed users, in input order, in batches of 1 to 25 |
| RatingsUpdate.RefreshPage | backend/user/ratings/update/main.go:117-122 | the batch writes after one more page are those written so far followed by exactly that page's changed users, and every batch keeps 1 to 25 users |
| RatingsUpdate.Handler | backend/user/ratings/update/main.go:109-126 | the scan starts from the empty key and sends each non-empty returned key next; it stops at the first error or empty key; an error is returned after the earlier pages were written, otherwise every page's changed users are written, in batches of 1 to 25 |
| GameCreate.PgnTexts | backend/game/create/main.go:50-62 | a chapter gives its one PGN, a study its list (a missing list as one empty text), a manual request its own text, and any other type the 400 `not supported` error naming it |
| GameCreate.HeaderAt | backend/game/create/main.go:111-114 | the i-th request header is used when the request has one, and none otherwise |
| GameCreate.ChapterError | backend/game/create/main.go:117-121 | an API error becomes a 400 naming chapter i+1 and keeping its public message; any other error passes through |
| GameCreate.ChapterErrorsNameTheChapter | backend/game/create/main.go:117-121 | the same API error, whatever its status, in two different chapters gives two different messages |
| GameCreate.GetGames | backend/game/create/main.go:103-136 | fails exactly when some PGN fails, with the first failure wrapped for its chapter; if any game lacks data, the header data of every PGN is returned; otherwise one game per PGN, in order |
| GameCreate.Handler | backend/game/create/main.go:33-101 | a bad body, a bad orientation, a dispatch error or a user lookup error fail, in that order; then the first chapter that fails to parse fails with its chapter error, and an empty PGN list fails with `no games found`; header data is answered exactly when every chapter parses and some chapter has no game, and then with each chapter's data and its count; when every chapter parses, a failed batch write fails with its error, and otherwise a chapter or manual import answers with the first parsed game and a study with the number written |
| Stats.Wrap | backend/database/stats.go:90-91 | no error stays no error; an error becomes a 500 `Temporary server error` carrying the given private message and the cause |
| Stats.BookableNamesDistinct | backend/database/stats.go:61-65 | distinct cohorts get distinct `#bc` placeholders, none equal to `#oc` |
| Stats.CreationClauses | backend/database/stats.go:56-69 | `created` and `ownerCohorts.#oc` first, then one `bookableCohorts.#bc{i}` per cohort, then one `types.{t}` per type, in order |
| Stats.AppendClauses | backend/database/stats.go:61-69 | appending increments to an expression gives the expression of all the paths in order |
| Stats.CreationExpression | backend/database/stats.go:55-69 | the creation expression increments exactly the creation clauses, in order |
| Stats.CreationNames | backend/database/stats.go:56-65 | `#oc` names the owner cohort, each `#bc{i}` names cohort i, and no other name is defined |
| Stats.RecordAvailabilityCreation | backend/database/stats.go:55-92 | the statistics record of the availability table is incremented by 1 along the creation clauses, with the placeholder names above, and a failure is wrapped with the availability message |
| Stats.AvailabilityDeletion | backend/database/stats.go:96-118 | the deletion update increments `deleted` and `deleterCohorts.#dc` on the availability table's statistics record, and `#dc` names the owner cohort and is the only name |
| Stats.RecordAvailabilityDeletion | backend/database/stats.go:95-122 | issues that deletion update; it fails exactly when the update fails, with a 500 carrying the availability statistics message and the cause |
| Stats.CreationAndDeletionCountApart | backend/database/stats.go:55-122 | no counter that creating an availability increments is one that deleting it increments |
| Stats.DeletionCountsOwnerCohort | backend/database/stats.go:96-99 | the deletion update depends on the availability's owner cohort alone |
| Stats.MeetingCreatedUpdate | backend/database/stats.go:148-172 | the meeting statistics record is incremented at `created`, at the owner and participant cohorts under `ownerCohorts` and `participantCohorts`, and at the meeting's type, and it defines exactly the four names `#oc`, `#ockey`, `#pc` and `#pckey` |
| Stats.RecordMeetingCreation | backend/database/stats.go:125-173 | `booked` is incremented first, and the meeting update is attempted exactly when that succeeded; the result is no error exactly when every attempted update succeeded, otherwise the last attempt's error: a 500 with `Temporary server error` as public message and its own private message |
| Tournament.LeaderboardKey | backend/database/tournament.go:87-91 | the key is `LEADERBOARD_`, then the upper-cased period, `_`, the upper-cased type, `_` and the upper-cased time control, each found at its place, and it contains no lower-case letter |
| Tournament.LeaderboardKeyIgnoresCase | backend/database/tournament.go:87-91 | for parts of equal lengths, two requests name the same leaderboard exactly when each part is equal up to letter case |
| Tournament.LeaderboardRequest | backend/database/tournament.go:92-102 | the range key is `startsAt` verbatim and the hash key is a leaderboard key |
| Tournament.Prefilled | backend/database/tournament.go:104-108 | the value read into carries the request's hash key, `startsAt`, and the upper-cased time control, and no players |
| Tournament.GetLeaderboard | backend/database/tournament.go:86-111 | the read uses the leaderboard key and `startsAt`, and returns what the read leaves in the pre-filled value, with its error |
| Tournament.SetLeaderboard | backend/database/tournament.go:71-83 | the leaderboard is written as given; a failed write gives a 500 with `Temporary server error` as public message, the PutItem message and the cause |
| Tournament.SetOpenClassical | backend/database/tournament.go:163-177 | the item written has type `OPEN_CLASSICAL` whatever the caller set, and keeps the caller's period and rounds; a failed write gives a 500 with `Temporary server error` as public message, the PutItem message and the cause |
| Tournament.OpenClassicalRequest | backend/database/tournament.go:182-189 | the hash key is always `OPEN_CLASSICAL` and the range key is `startsAt` |
| Tournament.GetOpenClassical | backend/database/tournament.go:180-196 | the read uses the fixed key and reads into an empty value |
| Tournament.OpenClassicalKeyIsNotLeaderboardKey | backend/database/tournament.go:22-24 | the Open Classical key never collides with a leaderboard key |

## Left out

- Transport and SDK calls are parameters: axios, Amplify, Cognito, DynamoDB, the five rating fetchers, `GetLichessChapter`, `GetLichessStudy`, `GetGame`, `BatchPutGames` and `GetUser`. Their own behaviour is not visible.
- `backend/database/repository.go` is not part of this model. It is a marshal-and-call wrapper over DynamoDB, and its guarantees come from condition expressions.
- `frontend/src/board/pgn/Editor.tsx` is not part of this model. Its logic lives in a module that is not shown.
- The request tracker (`api/Request`) is not part of this model beyond sent, loading, succeeded and failed.
- JSON parsing and stringifying in local storage: the stored value is an optional map.
- `encodeURIComponent`, `parseUser` and `hasCreatedProfile` are function parameters, because their code is not shown.
- Auth.HandleCognitoResponse: the Cognito session reaches `parseUser` as its id token alone, so a user parsed from parts of the session other than that token is not modelled.
- Dates are ISO strings compared by code point, as the calendar compares them. `Date` construction, time zones and `localeCompare` are not modelled. The meeting sort uses code-point order.
- Rendering (React, MUI, the scheduler widget), logging and analytics are left out. They do not decide any state.
- Concurrency is left out. Every flow runs sequentially, so interleaved or out-of-order promises are not modelled.
- Float scores of leaderboard players are left out, because floating point is out of scope.
- Upper-casing is ASCII only, because Unicode case mapping is out of scope.
- The order of `Object.values` is not modelled. `MeetingCache.GetMeetings` promises only membership and one value per id.
- `MeetingPage` reads a second events cache that is not shown. It is modelled with the same keyed store as the meeting cache.
- ActivityTimeline passes `hasMore` to a button whose props are `startKey` and `since`. The two files are modelled as written, and no property spans them.
- `ActivityTimeline.HandleLoadMore` follows the code: it calls `onLoadMore` whenever nothing cached is hidden, without checking `hasMore` itself.
- ActivityTimeline.GetTimeSpent: minutes are whole numbers. A fractional JavaScript number, such as 90.5 rendered as "1h 30.5m", is not modelled.
- Auth.Spread: an update is a set of present fields. A JavaScript spread of a field explicitly set to `undefined`, which overwrites the user's value, is not modelled.
- ActivityTimeline.CalendarLoadsIffBeforeAll: the order of the timeline's entries comes from a hook that is not part of this model, so the lemma takes newest-first order as a hypothesis.
- `Notification.GetTitle` has no contract of its own. `TitleOfNamedGame`, `TitleWithoutMetadata` and `TextIgnoresIdAndTime` state its behaviour.
- `RatingsUpdate.UpdateUsers` receives the refreshed ratings as a function of the user. `RatingsUpdate.NewRatings` builds that function from the fetchers.
- `RatingsUpdate.UpdateUsers` records the batches it writes, not their outcome, because a failed write is only logged.
- `RatingsUpdate.Handler` takes the scan as a finite sequence of pages of which one stops the loop. A scan that never ends is not modelled.
- `GameCreate.Handler`: a failed `RecordGameCreation` is only logged and never changes the response, so the call is not modelled.
- `Tournament.SetLeaderboard` and `Tournament.SetOpenClassical` do not model marshalling errors. The `errors` package is not shown, and marshalling these plain records does not fail.
- `Stats.Wrap` assumes that wrapping a nil error yields nil, as the callers rely on. The `errors` package is not part of this model.

## Findings

| source | as written | input that shows it | evidently intended | confidence | as-written member | corrected member |
|---|---|---|---|---|---|---|
| frontend/src/profile/activity/ActivityTimeline.tsx:32-33 | the hours are floored (`Math.floor`) but the minutes come from `%`, which truncates toward zero | `minutesSpent = -90` reads `-2h -30m`, which adds up to -150 minutes | both parts truncate toward zero, giving `-1h -30m`, so the parts add up to the time spent | not executed | ActivityTimeline.TimeSpentNegativeMismatch | ActivityTimeline.TimeSpentCorrectedAddsUp |
