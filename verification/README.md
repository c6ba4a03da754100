# AR-Blog core, modelled in Dafny

AR-Blog is a blogging front-end that stores user profiles and posts as
tagged transactions on the Arweave permaweb. This project models the rules
of its core:

- **The data access layer** (`src/lib/arweave.ts`). This covers:
  - the exact, ordered tag lists of profile and post transactions;
  - the payloads written, including the "Anonymous" author-name fallback;
  - the "no wallet" refusal;
  - the single-record readers, which return null on any failure and stamp the transaction id;
  - the list readers, which fetch every index hit, skip failures and sort newest first.

  The network is an oracle, in two parts:
  - The tag index (`Ledger.Index`) is a function from a tag query to the transaction ids it returns.
  - The payload store (`Ledger.Store`) is a map from an id to its decoded payload. An id missing from the map is one whose fetch or JSON parse fails.

  JSON is the identity on records. A transaction is a `Ledger.Transaction` object whose tag list `addTag` extends.
- **Form handling**:
  - the publish form of the compose page: field checks in order, the wallet check, and parsing of the comma-separated tag field;
  - the profile dialog: non-blank name, and a bio of at most 100 UTF-16 code units;
  - the paragraph split of the post page.

  The JavaScript string operations these use are modelled in `Text`:
  - `trim`, with the full ECMAScript white-space set;
  - `split` with a one-character separator, and `join`;
  - `filter`;
  - `length`.
- **Cache policy** (`src/lib/queryClient.ts`, `src/hooks/useArweaveQueries.ts`):
  - the retry delay and the retry count;
  - the stale windows;
  - the query keys, including the `"none"` placeholder keys of disabled queries;
  - the `enabled` and `initialData` choices.

  The query cache is a `QueryCache` object holding a map from key to stale flag. Invalidation marks every key that starts with the given prefix. The two mutations invalidate only on success.
- **Session and route guarding** (`src/contexts/ArweaveProvider.tsx`, `src/components/route-guard.tsx`). This covers:
  - the context derived from the wallet address and the profile query;
  - `createProfile`;
  - the route guard's one-way `checkedAuth` state machine and its render decision.

Main results:
- **Round trips:**
  - `Text.JoinSplit` and `Text.SplitJoin`: split and join are inverse.
  - `Ledger.ProfileRoundTrip` and `Ledger.PostRoundTrip`: a written record reads back.
- **Index discovery:** under the tag-matching rule of the index, a profile or post matches exactly the queries meant for it.
- **List reads:** the result is the sorted resolution of the index answer.
  - It is in newest-first order and a permutation of the readable hits.
  - A failing hit is skipped without affecting the others.
- **Cross-file:** the `Post-Tag` values written for a published post equal the parsed tags, because `trim` is idempotent.
- **Cache invalidation:** each mutation invalidates exactly the intended keys, and two invalidations in a row compose.
- **Route guard:** its effect redirects at most once, however its inputs change.

Files:
- `common.dfy`: `Option`, `Result` and the JavaScript nullable string.
- `text.dfy`: the string operations.
- `ledger.dfy`: the data access layer.
- `compose.dfy`: the compose page.
- `query_client.dfy`: the query client defaults.
- `queries.dfy`: the query hooks and the cache.
- `provider.dfy`: the session context.
- `profile_dialog.dfy`: the profile dialog.
- `route_guard.dfy`: the route guard.
- `post_page.dfy`: the post page.

## Model

| member | source | states |
|---|---|---|
| Text.SkipSpace | src/pages/Compose.tsx:59 | the forward scan stops at the first character that is not white space, or at the end; everything it passed is white space |
| Text.SkipSpaceBack | src/pages/Compose.tsx:59 | the backward scan stops just after the last character that is not white space, or at its lower bound; everything it passed is white space |
| Text.SkipSpaceAt | src/pages/Compose.tsx:59 | any index with only white space before it and none at it is where the forward scan stops |
| Text.SkipSpaceBackAt | src/pages/Compose.tsx:59 | any index with only white space after it and none just before it is where the backward scan stops |
| Text.Trim | src/pages/Compose.tsx:59 | the result has no leading or trailing white space, is no longer than the input, and is empty exactly when the input is blank |
| Text.TrimSpan | src/pages/Compose.tsx:59 | the input is white space, then the result of `trim`, then white space |
| Text.TrimOfPadded | src/pages/Compose.tsx:59 | conversely, white space around a trimmed string is exactly what `trim` removes: `trim(p + r + q) == r` |
| Text.TrimOfTrimmed | src/lib/arweave.ts:160 | trimming an already trimmed string changes nothing |
| Text.TrimIdempotent | src/lib/arweave.ts:160 | `trim` is idempotent |
| Text.Split | src/pages/Compose.tsx:58 | `split(d)` yields one more piece than there are separators, and no piece contains the separator |
| Text.JoinSplit | src/pages/Compose.tsx:58 | joining the pieces of a split with the separator gives back the string |
| Text.SplitJoin | src/pages/Compose.tsx:58 | splitting the join of separator-free pieces gives back the pieces |
| Text.SplitPieceChars | src/pages/Compose.tsx:58 | every character of every piece occurs in the split string |
| Text.BlankPieces | src/pages/Post.tsx:129-131 | all pieces of a split are blank exactly when the string holds only separators and white space |
| Text.Filter | src/pages/Compose.tsx:60 | `filter` keeps only accepted elements of the input, in order as a subsequence, and is empty exactly when nothing is accepted |
| Text.FilterCounts | src/pages/Compose.tsx:60 | `filter` keeps each accepted element exactly as often as it occurs in the input and drops every rejected one |
| Text.Utf16Length | src/components/profile-dialog.tsx:36 | `length` counts UTF-16 code units: between one and two per character, one per character in the Basic Multilingual Plane |
| Text.Utf16Char | src/components/profile-dialog.tsx:36 | one character is two code units outside the Basic Multilingual Plane and one inside it |
| Text.Utf16Append | src/components/profile-dialog.tsx:36 | code units add up over concatenation, so with `Utf16Char` the length of every string, mixed ones included, is fixed |
| Ledger.Transaction.constructor | src/lib/arweave.ts:110-112 | a new transaction carries its data and no tags |
| Ledger.Transaction.AddTag | src/lib/arweave.ts:115-118 | `addTag` appends exactly one tag at the end |
| Ledger.LabelTags | src/lib/arweave.ts:159-161 | one `Post-Tag` per label, the i-th carrying the i-th label trimmed |
| Ledger.PostTagsShape | src/lib/arweave.ts:153-161 | a post has 4 + n tags: the four fixed ones in order, then the trimmed labels in input order |
| Ledger.ProfileDiscoverable | src/lib/arweave.ts:63-72 | a profile matches the profile query of address b exactly when it belongs to b, and matches no post query |
| Ledger.MatchesFixed | src/lib/arweave.ts:153-161 | a query without a `Post-Tag` condition matches a post exactly when it matches its four fixed tags |
| Ledger.PostInFeed | src/lib/arweave.ts:174-182 | every post matches every feed query |
| Ledger.PostUnderAuthor | src/lib/arweave.ts:225-233 | a post matches the user-posts query of b exactly when b is its author |
| Ledger.PostNotProfile | src/lib/arweave.ts:63-72 | a post never matches a profile query |
| Ledger.LabelTagNames | src/lib/arweave.ts:159-161 | label tags never satisfy a condition on another tag name |
| Ledger.PostHasTag | src/lib/arweave.ts:153-161 | a condition on a fixed tag name holds of a post's tags iff it holds of the fixed tags |
| Ledger.AuthorName | src/lib/arweave.ts:137-138 | the author name is never empty; it is the profile's name when that is present and non-empty, otherwise "Anonymous" |
| Ledger.CreateUserProfile | src/lib/arweave.ts:101-125 | fails with "no wallet" exactly for an empty address; otherwise a new transaction carries the profile plus address and exactly the four profile tags in order |
| Ledger.CreateBlogPost | src/lib/arweave.ts:128-168 | fails exactly for an empty address; otherwise the payload has author, looked-up author name and clock time, and the tags are the fixed four then the label tags |
| Ledger.AddLabelTags | src/lib/arweave.ts:159-161 | the loop appends the label tags after the existing tags, in order |
| Ledger.GetUserProfile | src/lib/arweave.ts:58-98 | a profile is returned iff the index answers with a first hit that reads as a profile, and it is that hit's payload; no hit or any failure gives null |
| Ledger.Stamp | src/lib/arweave.ts:278 | the returned post carries the requested id, whatever id the payload had |
| Ledger.GetPost | src/lib/arweave.ts:273-283 | a post is returned iff the id reads as a post; it carries the requested id |
| Ledger.ProfileRoundTrip | src/lib/arweave.ts:111 | a written profile reads back with every field, once the index returns it first |
| Ledger.PostRoundTrip | src/lib/arweave.ts:149 | a written post reads back under its transaction id with every field |
| Ledger.Resolve | src/lib/arweave.ts:201-211 | the fetched posts are no more than the hits, and every post's id is one of the hits |
| Ledger.ResolveAppend | src/lib/arweave.ts:201-211 | resolving hits is done hit by hit (it distributes over concatenation) |
| Ledger.FailedEdgeSkipped | src/lib/arweave.ts:208-210 | a hit that cannot be fetched or parsed is left out without affecting the others |
| Ledger.ReadableEdgeKept | src/lib/arweave.ts:203-207 | every readable hit contributes its post, stamped with its id |
| Ledger.NewestFirstPairwise | src/lib/arweave.ts:214 | in a newest-first list any earlier post is at least as new as any later one |
| Ledger.Insert | src/lib/arweave.ts:214 | inserting into a newest-first list keeps it newest first and adds exactly that post |
| Ledger.SortNewestFirst | src/lib/arweave.ts:214 | the sort gives a newest-first permutation of its input |
| Ledger.CollectPosts | src/lib/arweave.ts:199-211 | the fetch loop yields exactly the resolution of the hits |
| Ledger.ListPosts | src/lib/arweave.ts:192-218 | the result is the sorted resolution: pairwise newest first, ids among the hits, no longer than the hits, empty without hits |
| Ledger.GetFeedPosts | src/lib/arweave.ts:171-219 | the feed (of 10 posts unless a limit is given) is the sorted resolution of the feed query's hits |
| Ledger.GetUserPosts | src/lib/arweave.ts:222-270 | the author's posts are the sorted resolution of the user-posts query's hits |
| Compose.TrimAll | src/pages/Compose.tsx:59 | each piece is trimmed, one for one |
| Compose.ParseTags | src/pages/Compose.tsx:57-60 | parsed tags are non-empty, trimmed and comma-free, at most one more than the commas, and appear in order among the trimmed pieces of the comma split |
| Compose.ParseTagsCounts | src/pages/Compose.tsx:57-60 | every non-empty trimmed piece of the comma split is a tag as often as it occurs, and no empty piece is |
| Compose.ParseTagsEmpty | src/pages/Compose.tsx:57-60 | the tag field gives no tags exactly when it holds only commas and white space |
| Compose.PublishRequest | src/pages/Compose.tsx:33-70 | title, description and content are checked in that order, then the wallet; the first failure stops; fields go out untrimmed and tags parsed |
| Compose.PublishedTagsWrittenAsParsed | src/lib/arweave.ts:159-161 | the `Post-Tag` values written for a published post are exactly its parsed tags |
| QueryClient.RetryDelay | src/lib/queryClient.ts:14 | the delay before retry n is min(1000 * 2^n, 30000): between 1 and 30 seconds |
| QueryClient.RetryDelayMonotone | src/lib/queryClient.ts:14 | a later retry never waits less |
| QueryClient.RetryDelayDoubles | src/lib/queryClient.ts:14 | the first retry waits 1000 ms and each delay doubles the previous one until the cap |
| QueryClient.RetryDelayCapped | src/lib/queryClient.ts:14 | the fifth retry waits 16000 ms and every later one exactly 30000 ms |
| QueryClient.RunQuery | src/lib/queryClient.ts:12 | a query runs until it succeeds or has failed more than `retry` times |
| QueryClient.RetriedAtMostOnce | src/lib/queryClient.ts:12 | a failed query is retried at most once, after 1000 ms, and succeeds iff one of its two attempts does |
| ArweaveQueries.HookKeys | src/hooks/useArweaveQueries.ts:15-20 | the hook keys are exactly the profile, user-posts, post and feed keys |
| ArweaveQueries.UserProfileQuery | src/hooks/useArweaveQueries.ts:23-32 | keyed by a truthy address, else by the "none" placeholder; disabled with null initial data only for a null address |
| ArweaveQueries.UserProfileQueryFn | src/hooks/useArweaveQueries.ts:26 | only a truthy address is looked up; anything else gives null |
| ArweaveQueries.UserPostsQueryFn | src/hooks/useArweaveQueries.ts:79 | only a truthy address is looked up; anything else gives [] |
| ArweaveQueries.PostQueryFn | src/hooks/useArweaveQueries.ts:118 | a post comes back only for a truthy id that reads as a post, and carries that id |
| ArweaveQueries.FeedPostsQuery | src/hooks/useArweaveQueries.ts:61-68 | the feed query is always enabled, keyed under the feed prefix by its limit (10 by default), stale after ten minutes |
| ArweaveQueries.UserPostsQuery | src/hooks/useArweaveQueries.ts:71-82 | enabled and keyed by the address exactly when it is truthy, else the placeholder key; default stale window |
| ArweaveQueries.PostQuery | src/hooks/useArweaveQueries.ts:112-122 | enabled and keyed by the id exactly when it is truthy, else the placeholder key; stale after ten minutes |
| ArweaveQueries.KeysDistinct | src/hooks/useArweaveQueries.ts:15-20 | keys of different kinds never collide, and each key determines its address or id |
| ArweaveQueries.ProfileCreationExact | src/hooks/useArweaveQueries.ts:48-52 | among the hook keys, profile creation invalidates exactly the creator's profile |
| ArweaveQueries.PostCreationExact | src/hooks/useArweaveQueries.ts:98-103 | post creation invalidates every feed limit and the author's posts, and no profile, single post or other author's posts |
| ArweaveQueries.AfterInvalidate | src/hooks/useArweaveQueries.ts:101-102 | invalidation keeps the cached keys and marks stale exactly those matching a prefix |
| ArweaveQueries.AfterPostCreated | src/hooks/useArweaveQueries.ts:98-103 | after post creation cached feeds and the author's posts are stale and the author's profile flag is unchanged |
| ArweaveQueries.InvalidatedConcat | src/hooks/useArweaveQueries.ts:101-102 | a key matches a list of prefixes iff it matches one of its parts |
| ArweaveQueries.AfterInvalidateTwice | src/hooks/useArweaveQueries.ts:101-102 | two invalidations in a row equal one invalidation of both prefixes |
| ArweaveQueries.InvalidatedSingle | src/hooks/useArweaveQueries.ts:51 | one prefix matches exactly the keys that start with it |
| ArweaveQueries.NoInvalidation | src/hooks/useArweaveQueries.ts:53-56 | invalidating nothing leaves the cache as it was |
| ArweaveQueries.QueryCache.constructor | src/hooks/useArweaveQueries.ts:36 | the cache starts with the given entries |
| ArweaveQueries.QueryCache.Invalidate | src/hooks/useArweaveQueries.ts:51 | `invalidateQueries` marks stale exactly the keys under the prefix |
| ArweaveQueries.CreateUserProfileMutation | src/hooks/useArweaveQueries.ts:35-58 | builds, for a non-empty address, the transaction with the profile-plus-address payload and the four profile tags; succeeds iff it was built and submitted; only success invalidates, and it invalidates the profile key |
| ArweaveQueries.CreateBlogPostMutation | src/hooks/useArweaveQueries.ts:85-109 | builds, for a non-empty address, the post transaction with author, looked-up author name and clock time and the post tags; succeeds iff it was built and submitted; only success invalidates the feed and the author's posts |
| ArweaveProvider.SessionAddress | src/contexts/ArweaveProvider.tsx:63 | the exposed address is present exactly for a truthy wallet address, and is then that non-empty address |
| ArweaveProvider.Derive | src/contexts/ArweaveProvider.tsx:22-69 | `addressLoading` iff the wallet address is undefined; `loading` iff address or profile loading; `isProfileCreated` iff a profile is present |
| ArweaveProvider.ProfileQueryFollowsWallet | src/contexts/ArweaveProvider.tsx:28-30 | the profile query is enabled and keyed by the address exactly for a truthy wallet address, else disabled with null data under the placeholder key |
| ArweaveProvider.SettledProfile | src/contexts/ArweaveProvider.tsx:67 | once settled, a profile is reported exactly when the connected wallet has a readable profile on the ledger |
| ArweaveProvider.PromptWhenProfileMissing | src/App.tsx:21-23 | once settled, the profile prompt appears exactly for a connected wallet without a profile |
| ArweaveProvider.CreateProfile | src/contexts/ArweaveProvider.tsx:35-57 | without a wallet returns false, builds nothing and leaves the cache untouched; otherwise submits the profile `{ name, bio, joinDate }` for the session address with the profile tags, returns true iff that succeeds, and only then invalidates the profile key |
| ProfileDialog.HandleSubmit | src/components/profile-dialog.tsx:28-49 | a blank name is rejected first, then a bio over 100 code units; otherwise the fields go out as typed and the dialog closes only when `createProfile` returned true |
| ProfileDialog.BioLimitInclusive | src/components/profile-dialog.tsx:36 | a 100-character bio is accepted |
| ProfileDialog.BioLimitCountsCodeUnits | src/components/profile-dialog.tsx:36 | 51 characters outside the Basic Multilingual Plane are already too long |
| ProfileDialog.AstralLength | src/components/profile-dialog.tsx:36 | characters outside the Basic Multilingual Plane count two code units each |
| ProfileDialog.MixedBioRejected | src/components/profile-dialog.tsx:36 | 99 characters from the Basic Multilingual Plane plus one emoji make 101 code units, and the bio is rejected |
| RouteGuard.Step | src/components/route-guard.tsx:19-49 | nothing once checked or while the address loads; redirect for a missing address, wait while the profile loads, redirect for a missing required profile, else pass; checked exactly when decided |
| RouteGuard.QuietOnceChecked | src/components/route-guard.tsx:21 | once checked, no later run redirects |
| RouteGuard.RedirectsAtMostOnce | src/components/route-guard.tsx:19-58 | however the context changes between runs, the effect redirects at most once |
| RouteGuard.Guard.constructor | src/components/route-guard.tsx:11-17 | a new guard has not checked |
| RouteGuard.Guard.RunEffect | src/components/route-guard.tsx:19-49 | the effect does what `Step` decides; once checked, it stays checked and does nothing |
| RouteGuard.Guard.Render | src/components/route-guard.tsx:60-82 | the placeholder iff unchecked, loading and an address is present; null iff checked without an address; otherwise the page |
| RouteGuard.PlaceholderWhileProfileLoads | src/components/route-guard.tsx:62 | with the session context, the placeholder shows exactly while a connected wallet's profile loads before the check |
| RouteGuard.PageShownWhileWalletConnects | src/components/route-guard.tsx:62-82 | before the first check, the page renders while the wallet is still connecting |
| RouteGuard.PageShownAfterProfileRedirect | src/components/route-guard.tsx:72-82 | after a check with an address but no profile, the page renders |
| PostPage.RouteId | src/pages/Post.tsx:18 | a missing or empty route id becomes null |
| PostPage.RouteIdDrivesQuery | src/pages/Post.tsx:18 | without a route id the post query is disabled; with one it is keyed by it |
| PostPage.ChooseView | src/pages/Post.tsx:40-68 | loading wins; then an error or a missing post gives not-found; else the post |
| PostPage.SettledView | src/pages/Post.tsx:18-68 | after loading, the post is shown exactly when the route id reads as a post, and it carries that id |
| PostPage.ShowAppreciate | src/pages/Post.tsx:115 | the appreciate button shows exactly when the wallet yields a session address that is not the author's; never on the author's own post |
| PostPage.Paragraphs | src/pages/Post.tsx:129-133 | paragraphs are unmodified lines of the body, in order; each is newline-free and not blank, and there is at most one more than the newlines |
| PostPage.ParagraphCounts | src/pages/Post.tsx:129-133 | every line of the body with text is a paragraph as often as it occurs, and no blank line is |
| PostPage.NoParagraphsIffBlank | src/pages/Post.tsx:129-133 | a body shows no paragraph exactly when it is blank |
| PostPage.SingleLine | src/pages/Post.tsx:129-133 | a one-line body with text is one paragraph, unchanged |

## Left out

- Network and SDK: the GraphQL request, `arweave.transactions.get` and data decoding are the index and store oracles. The GraphQL query text is a `Ledger.Query` value, not a string.
- Signing and posting: these are done by the external wallet. The write methods return the built transaction. The mutations take whether submission succeeded as a parameter. The transaction id that `createUserProfile` and `createBlogPost` return is not modelled.
- JSON: encoding and decoding are the identity on records. A payload of the wrong shape counts as a parse failure.
  - In the source, such a payload would be returned unchecked.
- Clock and locale: `Date.now()` and the formatted join date are parameters.
- The index's ordering: which profile the index returns first, and how `first: limit` truncates the feed, belong to the index oracle.
- Ledger.SortNewestFirst: proved newest first and a permutation. That it keeps equal-timestamp posts in input order, as JavaScript's stable sort does, is not stated.
- TanStack Query internals are library behaviour:
  - request de-duplication, timers, garbage collection and refetch-on-focus;
  - the async mutation lifecycle;
  - the toasts of `onSuccess` and `onError`.

  `GcTime` is kept as a constant only.
- QueryClient.RunQuery: models only the retry count and the delays between attempts, not how TanStack schedules them.
- The `useUserProfile` hook in `src/lib/arweave.ts` is React effect lifecycle and async concurrency.
- Toasts and navigation are not modelled beyond the outcome datatypes:
  - the "Please connect your wallet" redirect of the compose page is `WalletNotConnected`;
  - the guard's redirects are `RedirectHome`;
  - the compose page's navigation to "/profile" after a successful publish is not modelled.
- The appreciation button's amount handling is left out for two reasons: it uses floating point, and `sendAppreciation` is not part of this model. Only its visibility is modelled.
- Ledger.Index: the index oracle is not tied to `Ledger.Matches`. The discovery lemmas say which queries a record's tags match, not that the index returns it.
- RouteGuard.RedirectsAtMostOnce: counts the effect's redirects only. The render fallback navigates home on every render that is checked and has no address, for example after the wallet disconnects.
- Rendering: page markup, relative times, avatars and the `maxLength` attribute of the bio text area are not modelled.
- View branches of the other pages are not modelled: the loading, error and empty states of the feed (`src/pages/Feed.tsx`), of the own profile page (`src/pages/Profile.tsx`) and of the public profile page (`src/pages/PublicProfile.tsx`), including its missing-profile state, and the render branches of the compose page (`src/pages/Compose.tsx`). Only the post page's view choice is modelled.
