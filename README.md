# Crackd caption app: a Dafny model of its core

This project models the logic of a Next.js app. Users upload an image,
get machine-generated captions for it, and browse a gallery of captioned
images. The Supabase session guards every page except a short allow list.
The model covers five
parts of the app:

- **The caption pipeline** (`Pipeline`, `PipelineFacts`).
  - Four remote steps run in order: presign an upload URL, PUT the file,
    register the image, generate captions.
  - Each step emits a `running` event and then a `success` or `error`
    event. It re-throws errors by the source's rules.
  - The stage helpers are modelled too: `readErrorMessage`, `postJson`
    and `assertString`.
  - The network is a transport function from request to outcome.
  - `runCaptionPipeline` is an imperative method that builds its events
    and requests step by step. It is proved equal to the functional
    specification `Run`, and the properties are proved about `Run`.
- **The browser cookie adapter of the Supabase client** (`BrowserCookies`).
  - Parsing `document.cookie` into name/value pairs, with a round trip
    from a browser-style cookie list.
  - The `setAll` serialiser, which writes one `Set-Cookie`-style line per
    cookie. Its attributes are those of section 4.1.1 of RFC 6265 plus the
    SameSite extension attribute, in the order the serialiser pushes them.
  - The memoised `createClient`.
- **The route guard** (`Middleware`).
  - The allow list.
  - The allow/redirect decision.
  - The debug headers.
  - The `setAll` callback, which updates the request cookies and replaces
    the response.
- **The gallery page** (`Gallery`).
  - Row keys, the search filter, `hasMore` and the "Load more" range.
  - The card colour index.
  - The state transitions of the initial fetch and of loading more, as
    methods of a `GalleryPage` class.
- **The profile editor in the header** (`ProfileHeader`).
  - Name loading and normalisation.
  - The full and displayed names.
  - The open, close and save transitions, as methods of a `ProfileEditor`
    class.

Shared modules:

- `Wrappers`: `Option`.
- `Seqs`: `map` and `filter` over sequences.
- `Text`: the JavaScript string operations the code uses.
  - `trim` with ECMAScript's whitespace set.
  - ASCII `toLowerCase`/`toUpperCase`.
  - `includes`, `startsWith`, `indexOf`, `split`, `join`.
  - The decimal rendering of integers.

Outcomes of remote calls are parameters of the methods:

- Supabase queries, `getUser`, `fetch` and the upsert.
- The `isMounted`/`mounted` flags of the React effects.

Asynchronous handlers are split at their `await` into a start method and
a finish method, so the guards that matter while a call is pending can be
stated:

- `StartLoadMore`/`FinishLoadMore`
- `BeginSave`/`FinishSave`
- `FinishGetUser`/`FinishProfileLoad`

Two details of the pipeline's error handling:

- **Wrapping.** Only step 2 wraps a thrown value that is not a
  `PipelineError`. Steps 1, 3 and 4 re-throw the caught value unchanged
  (`UploadRethrown`, `TraceFrom`, `RunRejectedPresign`).
- **Message field.** A `message`/`error` field counts when it is a string
  that is not blank after trimming, and it is returned untrimmed
  (`ReadErrorMessageChoice`).

Verifying the guard and the gallery brought out three behaviours of the
code as written. Each is stated by a contract, and none is recorded as a
defect:

- The redirect to `/login` is a fresh response. It drops any session
  cookies the Supabase client refreshed through `setAll`
  (`Middleware.Guard`).
- When `setAll` runs several times, the response keeps only the last
  batch's cookies, while the request accumulates all of them
  (`Middleware.Guard`).
- A row whose id is the string `"0"` gets the same key as a row without an
  id at index 0 (`Gallery.KeysCanCollide`).

## Model

| member | source | states |
|---|---|---|
| Pipeline.Fallback | my-next-app/lib/pipeline.ts:47 | The fallback message (status code, space, status text, trimmed) is never blank. |
| Pipeline.ReadErrorMessage | my-next-app/lib/pipeline.ts:46-71 | `readErrorMessage` yields a message for every response, with every body shape and every read failure, and the message is never blank. |
| PipelineFacts.ReadErrorMessageChoice | my-next-app/lib/pipeline.ts:49-69 | Which message is chosen. For a JSON response: `message` if it is a non-blank string, else `error` if it is, else the fallback, each returned untrimmed. For other responses: the trimmed text, or the fallback when the text is blank. A body read that throws gives the fallback. |
| PipelineFacts.FallbackStatusLine | my-next-app/lib/pipeline.ts:47 | With a trimmed status text, the fallback is the decimal status code, then a space and the text; it is the code alone when the text is empty. |
| Pipeline.Field | my-next-app/lib/pipeline.ts:57-62 | Reading a property yields a value exactly when the JSON value is an object holding that key, and then it yields that key's value. |
| Pipeline.PostJson | my-next-app/lib/pipeline.ts:73-94 | `postJson` succeeds exactly on an ok response whose JSON decodes, and gives that JSON. A non-ok response throws `PipelineError(step, readErrorMessage(response))` (non-blank message). A rejected fetch, and an ok response whose `json()` throws, propagate the host failure unchanged. |
| Pipeline.AssertString | my-next-app/lib/pipeline.ts:96-101 | `assertString` accepts exactly a non-blank string value and returns it unchanged, not trimmed. Otherwise it throws `PipelineError(step, "Invalid <label> returned by API.")`. |
| Pipeline.FilterCaptions | my-next-app/lib/pipeline.ts:193-196 | The captions are the object-or-array items, with every occurrence kept (multiset) and nothing else. |
| Pipeline.Presign | my-next-app/lib/pipeline.ts:115-123 | Step 1's body succeeds exactly when `postJson` gives an answer whose `presignedUrl` and `cdnUrl` are non-blank strings, and returns those two fields. A `postJson` failure comes back unchanged. A `null` answer throws the TypeError of reading `presignedUrl`. Otherwise an invalid `presignedUrl` is reported first, then an invalid `cdnUrl`, as step-1 `PipelineError`s. |
| Pipeline.Upload | my-next-app/lib/pipeline.ts:135-147 | Step 2's body succeeds exactly when the PUT settles with an ok response. A non-ok response throws `PipelineError(2, readErrorMessage(response))`, and a rejected PUT throws the host failure itself. |
| Pipeline.UploadRethrown | my-next-app/lib/pipeline.ts:155-159 | Step 2's catch re-throws a `PipelineError` unchanged and wraps any other thrown value as a step-2 `PipelineError`. |
| Pipeline.Register | my-next-app/lib/pipeline.ts:165-172 | Step 3's body succeeds exactly when `postJson` gives an answer whose `imageId` is a non-blank string, and returns that field. A `postJson` failure comes back unchanged; a `null` answer throws the TypeError of reading `imageId`; otherwise the error is `PipelineError(3, "Invalid imageId returned by API.")`. |
| Pipeline.Captions | my-next-app/lib/pipeline.ts:185-199 | Step 4's body succeeds exactly on a decoded array, and then gives all its records, in order. A `postJson` failure comes back unchanged. A decoded body that is not an array throws `PipelineError(4, "Invalid captions response returned by API.")`. |
| Pipeline.Completed | my-next-app/lib/pipeline.ts:112-208 | The events of n completed steps: two per step. |
| Pipeline.RunCaptionPipeline | my-next-app/lib/pipeline.ts:103-215 | The imperative orchestrator's result, emitted events and issued requests equal the specification `Run`. |
| Pipeline.PresignStep | my-next-app/lib/pipeline.ts:112-132 | Step 1 as a block: its events, its request and the continuation equal `RunPresign`. |
| Pipeline.UploadStep | my-next-app/lib/pipeline.ts:134-161 | Step 2 as a block, after step 1's events, equals `RunUpload`. |
| Pipeline.RegisterStep | my-next-app/lib/pipeline.ts:163-181 | Step 3 as a block, after steps 1-2, equals `RunRegister`. |
| Pipeline.CaptionsStep | my-next-app/lib/pipeline.ts:183-214 | Step 4 as a block, and the assembled result, equal `RunCaptions`. |
| PipelineFacts.CompletedAt | my-next-app/lib/pipeline.ts:112-208 | Position by position, completed steps emit `{k, running}` then `{k, success}` for k = 1, 2, .... |
| PipelineFacts.CompletedWellOrdered | my-next-app/lib/pipeline.ts:112-208 | The events of completed steps obey the three ordering rules. |
| PipelineFacts.StoppedWellOrdered | my-next-app/lib/pipeline.ts:124-131 | Completed steps, then a step that starts and fails, still obey the ordering rules. |
| PipelineFacts.PresignTrace | my-next-app/lib/pipeline.ts:112-132 | From step 1 on, a run completes or stops at one step k. Steps before k succeeded. Step k started, and its error event carries the message of what k's body threw on the answer to the last request sent. One request was sent per step. Step 2 wraps the thrown error into a step-2 `PipelineError`; steps 1, 3 and 4 re-throw it unchanged. The first request is the presign POST. |
| PipelineFacts.UploadTrace | my-next-app/lib/pipeline.ts:134-161 | The same shape for a run from step 2 on. |
| PipelineFacts.RegisterTrace | my-next-app/lib/pipeline.ts:163-181 | The same shape for a run from step 3 on. |
| PipelineFacts.CaptionsTrace | my-next-app/lib/pipeline.ts:183-208 | The same shape for step 4. |
| PipelineFacts.RunTrace | my-next-app/lib/pipeline.ts:103-215 | Every run with a non-blank token completes all four steps, or stops at one step as described above. |
| PipelineFacts.RunMissingToken | my-next-app/lib/pipeline.ts:108-112 | A blank token throws `PipelineError(1, "Missing access token. Please sign in again.")` with no event and no request, exactly when the token is blank. Any other token starts with `{1, running}` and the presign request. |
| PipelineFacts.RunEventRules | my-next-app/lib/pipeline.ts:112-208 | Every run's events obey the ordering rules: running then one outcome per step; step N+1 only after N succeeded; nothing after an error. A run succeeds exactly when there are eight events ending in `{4, success}`. A failed run's last event is an error. |
| PipelineFacts.RunErrorMessage | my-next-app/lib/pipeline.ts:124-160 | In a failed run, the last event is an error for step k, and k's body threw on the answer to the last request. The event carries that error's message ("Unknown error" for a non-`Error`). For steps 1, 3 and 4 the run throws that error unchanged. For step 2 the run throws it wrapped by the step-2 rule, so it is always a step-2 `PipelineError`. |
| PipelineFacts.RunResultAssembly | my-next-app/lib/pipeline.ts:115-214 | A successful run returns the `cdnUrl` field of step 1's answer, the `imageId` field of step 3's answer and the filtered records of step 4's array. It emitted the eight success events and sent the four requests in order: the PUT to the answer's `presignedUrl`, then the register call with the `cdnUrl`. |
| PipelineFacts.UploadResult | my-next-app/lib/pipeline.ts:134-214 | A successful run from step 2 on had an ok PUT. Its result holds the `imageId` field of the register answer and the filtered captions array. |
| PipelineFacts.RegisterResult | my-next-app/lib/pipeline.ts:163-214 | A successful run from step 3 on returns the `imageId` field of the register answer and the filtered captions array. |
| PipelineFacts.CaptionsResult | my-next-app/lib/pipeline.ts:183-214 | A successful step 4 returns the filtered records of the decoded array. |
| PipelineFacts.RunRejectsPresignedUrl | my-next-app/lib/pipeline.ts:116-131 | Any non-null presign answer whose `presignedUrl` is missing, not a string or blank ends the run at step 1 with `PipelineError(1, "Invalid presignedUrl returned by API.")`, after `{1, running}` and `{1, error}` and one request. Such an answer may be an object, an array or a scalar. |
| PipelineFacts.RunRejectedPresign | my-next-app/lib/pipeline.ts:79-131 | A presign `fetch` that rejects ends the run at step 1 with that failure itself, not wrapped, after one request and the events `{1, running}`, `{1, error}`. |
| PipelineFacts.RunRejectedUpload | my-next-app/lib/pipeline.ts:136-160 | A PUT that rejects stops at step 2. The event reports the failure's message, or "Unknown error" for a value that is not an `Error`. The run throws a step-2 `PipelineError` with that message, or "Upload failed" in the second case. |
| PipelineFacts.RunSucceedsOnWellFormedAnswers | my-next-app/lib/pipeline.ts:103-215 | A run succeeds when all four answers are well formed: non-blank `presignedUrl`/`cdnUrl` strings, an ok PUT to that URL, a non-blank `imageId` string for that CDN URL, and an array for that id. The result is those fields and the array's records, after eight success events and the four requests. |
| PipelineFacts.RunRejectsCaptions | my-next-app/lib/pipeline.ts:192-207 | A captions answer that is not an array ends the run with the invalid-captions error after three completed steps. |
| PipelineFacts.CaptionsInOrder | my-next-app/lib/pipeline.ts:193-196 | The caption filter preserves order: filtering a concatenation concatenates the filtered parts. |
| BrowserCookies.ParseEntry | my-next-app/lib/supabase/client.ts:15-21 | An entry is split at its first `=`. The name holds no `=`, and name, `=`, value rebuild the entry. An entry without `=` is a name with an empty value. |
| BrowserCookies.ParsePair | my-next-app/lib/supabase/client.ts:16-20 | `name=value` with no `=` in the name parses back to that name and value, even when the value holds `=`. |
| BrowserCookies.Entries | my-next-app/lib/supabase/client.ts:11-13 | One trimmed entry per `;`-separated piece. |
| BrowserCookies.ParseDocumentCookies | my-next-app/lib/supabase/client.ts:6-22 | No document or an empty cookie string gives no cookies. Otherwise there are at most as many cookies as pieces, and no name holds `=`. |
| BrowserCookies.EntriesConcat | my-next-app/lib/supabase/client.ts:11-13 | The entries of `a;b` are those of `a`, then those of `b`. |
| BrowserCookies.EntriesLeadingSpace | my-next-app/lib/supabase/client.ts:13 | A space before a piece does not change the entries. |
| BrowserCookies.ParseOfEntries | my-next-app/lib/supabase/client.ts:7-14 | The empty-string guard agrees with the split/trim/filter path. |
| BrowserCookies.ParseConcat | my-next-app/lib/supabase/client.ts:11-21 | Parsing `a;b` gives the cookies of `a`, then those of `b`: order kept, empty entries dropped. |
| BrowserCookies.ParseSingle | my-next-app/lib/supabase/client.ts:11-21 | A string without `;` gives nothing when it trims to empty, else the one pair split from its trimmed text. |
| BrowserCookies.ParseListed | my-next-app/lib/supabase/client.ts:11-21 | One listed cookie's `name=value` parses back to exactly that cookie. |
| BrowserCookies.ParseSpaced | my-next-app/lib/supabase/client.ts:13 | Leading space is ignored by the parse. |
| BrowserCookies.ParseCons | my-next-app/lib/supabase/client.ts:11-21 | A listed cookie followed by `"; "` and more text is read first, then the rest. |
| BrowserCookies.ParseRoundTrip | my-next-app/lib/supabase/client.ts:6-22 | Parsing a browser-style `document.cookie` (pairs joined by `"; "`) gives back exactly the cookie list, in order. |
| BrowserCookies.SameSitePolicy | my-next-app/lib/supabase/client.ts:40-63 | The SameSite option as written. Missing or `true` gives "Lax"; `false` or `""` gives nothing. A non-empty string is written with its first letter upper-cased and the rest lower-cased. |
| BrowserCookies.SameSiteDefaulted | my-next-app/lib/supabase/client.ts:40 | Read as the code reads it (`sameSite ?? "lax"`, truthiness, non-string read as "Lax"), a policy is written exactly when the defaulted value is truthy, and it is that value capitalised. |
| BrowserCookies.SameSitePart | my-next-app/lib/supabase/client.ts:56-63 | The code's conditional SameSite push equals pushing the policy's part. |
| BrowserCookies.AttributesKinds | my-next-app/lib/supabase/client.ts:42-75 | Path is always present. Domain is present exactly for a non-empty domain, Secure and HttpOnly exactly when set, SameSite exactly when a policy is written, Max-Age exactly for a number, Expires exactly when given. |
| BrowserCookies.AttributesOrdered | my-next-app/lib/supabase/client.ts:42-75 | Path comes first with `/` as default. The attributes come in the serialiser's push order (Path, Domain, Secure, HttpOnly, SameSite, Max-Age, Expires), each kind at most once. |
| BrowserCookies.RankedAttributes | my-next-app/lib/supabase/client.ts:42-75 | The push sequence, whatever options are set, is strictly ordered by kind. |
| BrowserCookies.AttributePartsRendered | my-next-app/lib/supabase/client.ts:42-75 | The strings pushed are exactly the rendering of the attribute list, one per attribute. |
| BrowserCookies.CookieLineStart | my-next-app/lib/supabase/client.ts:38-42 | Every written line starts with `name=value; Path=<path>`. |
| BrowserCookies.SerializeCookie | my-next-app/lib/supabase/client.ts:37-77 | The string builder's line (pair, conditional pushes, joined by `"; "`) equals the specified cookie line. |
| BrowserCookies.SetAll | my-next-app/lib/supabase/client.ts:34-79 | Without a document nothing is written. Otherwise one line per cookie to set is written, in order. |
| BrowserCookies.ClientCache.CreateClient | my-next-app/lib/supabase/client.ts:24-86 | The first call builds a client from the given configuration. Every later call returns the stored instance, and the cache then holds it. |
| BrowserCookies.CreateClientTwice | my-next-app/lib/supabase/client.ts:24-86 | Two calls return the same instance, whatever configuration the second call reads. |
| Middleware.IsAllowedPath | my-next-app/middleware.ts:4-13 | Allowed exactly for the five listed paths and for any path starting with `/_next/`. |
| Middleware.AssetPathsAllowed | my-next-app/middleware.ts:11 | Every path below `/_next/` is allowed. |
| Middleware.AllowListIsExact | my-next-app/middleware.ts:4-13 | Every path below `/login/` is guarded, as are `/_next` without its slash and `/`. |
| Middleware.Decide | my-next-app/middleware.ts:56-64 | The request is redirected exactly when the path is not allowed and there is no user. |
| Middleware.DecisionCases | my-next-app/middleware.ts:56-64 | An allowed path always passes. A guarded path without a user is redirected; with a user it passes. |
| Middleware.UserHeader | my-next-app/middleware.ts:17 | `x-user` is "present" exactly with a user and "absent" exactly without one. |
| Middleware.SetEach | my-next-app/middleware.ts:39 | Setting a batch of cookies on a store keyed by name adds exactly the batch's names. |
| Middleware.SetEachUnnamed | my-next-app/middleware.ts:39 | A cookie the batch does not name keeps its entry. |
| Middleware.SetEachLastWins | my-next-app/middleware.ts:45 | The last cookie of a name in a batch decides that name's entry. |
| Middleware.IncomingRequest.SetCookie | my-next-app/middleware.ts:39 | `request.cookies.set` overwrites one name. |
| Middleware.Response.Next | my-next-app/middleware.ts:24-28 | A pass-through forwards the request's cookies, with no headers and no cookies of its own. |
| Middleware.Response.Redirect | my-next-app/middleware.ts:61 | A redirect carries its location and nothing else. |
| Middleware.Response.SetHeader | my-next-app/middleware.ts:16-17 | Setting a header changes that header only. |
| Middleware.Response.SetCookie | my-next-app/middleware.ts:45 | Setting a response cookie changes that cookie only. |
| Middleware.WithDebugHeaders | my-next-app/middleware.ts:15-19 | The same response is returned with `x-mw-hit: 1` and the `x-user` header set; nothing else changes. |
| Middleware.SetAll | my-next-app/middleware.ts:38-46 | The request's cookies take the batch's values. The response is replaced by a fresh pass-through that forwards the updated cookies and sets exactly the batch's cookies. |
| Middleware.Guard | my-next-app/middleware.ts:21-65 | The request's cookies reflect every `setAll` batch. Every response carries `x-mw-hit: 1` and `x-user`. A redirect goes to `<origin>/login` with no cookies and `x-user: absent`. A pass-through forwards the request cookies and sets the last batch's cookies. |
| Gallery.RowKey | my-next-app/src/app/crackd/page.tsx:92 | A row's key is its string id, its integer id in decimal, or, for a null or missing id, its index in decimal. |
| Gallery.PositionalKeyIsIndex | my-next-app/src/app/crackd/page.tsx:92 | A positional key reads back as the index. |
| Gallery.KeyedFrom | my-next-app/src/app/crackd/page.tsx:89-97 | One entry per row. Entry i holds row i, index i (from the offset) and that row's key. |
| Gallery.KeyedAppend | my-next-app/src/app/crackd/page.tsx:89-97 | Keying appended rows continues the numbering where the earlier rows stop. |
| Gallery.RowsByKeyAppend | my-next-app/src/app/crackd/page.tsx:89-97 | `rowsByKey` of appended rows is the earlier entries, then the new rows keyed from the old length. |
| Gallery.IndexKeysDistinct | my-next-app/src/app/crackd/page.tsx:92 | Two rows without an id never share a key. |
| Gallery.KeysCanCollide | my-next-app/src/app/crackd/page.tsx:92 | A string id can equal another row's positional key. |
| Gallery.FilteredRows | my-next-app/src/app/crackd/page.tsx:99-109 | A blank query shows `rowsByKey` unchanged. Otherwise the shown rows are the filter by the lower-cased description containing the query, never more rows than there are. |
| Gallery.BlankSearchShowsAll | my-next-app/src/app/crackd/page.tsx:100-101 | A whitespace-only search term shows every row. |
| Gallery.FilteredMembership | my-next-app/src/app/crackd/page.tsx:102-108 | Under a non-blank query, a row is shown exactly when it is loaded and its lower-cased description contains the trimmed, lower-cased query. |
| Gallery.NoDescriptionHidden | my-next-app/src/app/crackd/page.tsx:103-107 | A row whose description is not a string counts as "" and matches no non-blank query. |
| Gallery.FilteredAppend | my-next-app/src/app/crackd/page.tsx:102-108 | The filter keeps order: filtering appended rows appends the filtered rows. |
| Gallery.FilteredIdempotent | my-next-app/src/app/crackd/page.tsx:99-109 | Filtering the shown rows again changes nothing. |
| Gallery.HasMore | my-next-app/src/app/crackd/page.tsx:111-112 | There is more exactly when the total is known and exceeds the loaded rows. |
| Gallery.NextPage | my-next-app/src/app/crackd/page.tsx:118-119 | The next range starts at the loaded count and asks for exactly 12 rows (inclusive bounds). |
| Gallery.FirstPage | my-next-app/src/app/crackd/page.tsx:52 | The first page is rows 0 through 11. |
| Gallery.PagesAdjacent | my-next-app/src/app/crackd/page.tsx:118-119 | Consecutive pages have no gap and no overlap. |
| Gallery.CardColorIndex | my-next-app/src/app/crackd/page.tsx:234 | The colour index is `index % 12` and always a valid index into the 12 colours. |
| Gallery.CardColorsCycle | my-next-app/src/app/crackd/page.tsx:234 | Colours repeat every 12 cards, and neighbouring cards never share a colour. |
| Gallery.GalleryPage.constructor | my-next-app/src/app/crackd/page.tsx:33-41 | The page starts empty and loading, with no error, no total and an empty search. |
| Gallery.GalleryPage.StartInitialFetch | my-next-app/src/app/crackd/page.tsx:46-52 | The initial fetch sets loading, clears the error and asks for the first page. |
| Gallery.GalleryPage.FinishInitialFetch | my-next-app/src/app/crackd/page.tsx:54-64 | After unmounting nothing changes. A failure empties the rows, forgets the total and records the message. A success replaces the rows (null data as none) and keeps the count only when it is a number. Loading ends in both cases. |
| Gallery.GalleryPage.StartLoadMore | my-next-app/src/app/crackd/page.tsx:114-123 | Ignored while loading more or when nothing is left. Otherwise it sets `loadingMore`, clears the error and requests `[rows.length, rows.length + 11]`. |
| Gallery.GalleryPage.FinishLoadMore | my-next-app/src/app/crackd/page.tsx:125-130 | A failure keeps the rows and records the message. A success appends the page. The existing prefix is unchanged, and `loadingMore` ends false. |
| Gallery.GalleryPage.SetSearchTerm | my-next-app/src/app/crackd/page.tsx:185 | The search box changes only the search term. |
| Gallery.LoadedPageAppendsToShown | my-next-app/src/app/crackd/page.tsx:89-109 | After a page is appended, the rows shown before stay first, followed by the new rows that match, keyed from where the earlier rows stop. |
| ProfileHeader.LoadedName | my-next-app/components/AuthHeader.tsx:52-53 | A loaded name is the trim of the column's text, so it is always trimmed. A null or missing name, or a blank one, becomes "". |
| ProfileHeader.LoadedNameTrimmed | my-next-app/components/AuthHeader.tsx:52-53 | An already trimmed name is loaded unchanged. |
| ProfileHeader.JoinPresentNames | my-next-app/components/AuthHeader.tsx:72 | Filtering out empty names and joining with a space gives the non-empty names with one space between them. |
| ProfileHeader.FullName | my-next-app/components/AuthHeader.tsx:72 | `fullName` is trimmed, and it is the trim of the non-empty names joined by one space. |
| ProfileHeader.FullNameOfTrimmed | my-next-app/components/AuthHeader.tsx:72 | For trimmed names, the full name is exactly the non-empty names joined by one space. |
| ProfileHeader.BlankNamesVanish | my-next-app/components/AuthHeader.tsx:72 | Whitespace-only names give an empty full name. |
| ProfileHeader.DisplayName | my-next-app/components/AuthHeader.tsx:73 | The display name is the full name when it is non-empty, else the e-mail address, else "". |
| ProfileHeader.DisplayNameChoice | my-next-app/components/AuthHeader.tsx:72-73 | With trimmed names, the button is blank exactly when both names and the e-mail are empty. It begins with the first name whenever there is one, and it is the e-mail when both names are empty. |
| ProfileHeader.ProfileEditor.constructor | my-next-app/components/AuthHeader.tsx:14-22 | The header starts with no user, empty names, the dialog closed, no save running and no error. |
| ProfileHeader.ProfileEditor.FinishGetUser | my-next-app/components/AuthHeader.tsx:28-36 | After `getUser`, the user is recorded unless the header has unmounted; nothing else changes. |
| ProfileHeader.ProfileEditor.FinishProfileLoad | my-next-app/components/AuthHeader.tsx:38-58 | A failed lookup or an unmounted header changes no name. Otherwise the trimmed names, or "" for no row or a null column, become both the displayed names and the edit fields. |
| ProfileHeader.ProfileEditor.OpenEditor | my-next-app/components/AuthHeader.tsx:75-80 | Opening copies the displayed names into the edit fields, clears the error and opens the dialog. |
| ProfileHeader.ProfileEditor.CloseEditor | my-next-app/components/AuthHeader.tsx:82-86 | Closing does nothing while saving. Otherwise it clears the error and closes the dialog. |
| ProfileHeader.ProfileEditor.SetEditFirstName | my-next-app/components/AuthHeader.tsx:141 | Typing a first name changes only that edit field. |
| ProfileHeader.ProfileEditor.SetEditLastName | my-next-app/components/AuthHeader.tsx:142 | Typing a last name changes only that edit field. |
| ProfileHeader.ProfileEditor.BeginSave | my-next-app/components/AuthHeader.tsx:88-104 | Nothing happens without a user or while saving. Otherwise saving starts, the error clears and the trimmed edit fields are sent for the user's id. |
| ProfileHeader.ProfileEditor.FinishSave | my-next-app/components/AuthHeader.tsx:106-118 | Saving ends. A failure keeps the names and the dialog and sets "Could not save profile. Please try again.". A success shows the sent names, closes the dialog and shows "Saved". |
| ProfileHeader.ProfileEditor.HandleSave | my-next-app/components/AuthHeader.tsx:88-119 | A whole save. Without a user or while saving it is a no-op, with the "Saved" flag unchanged. Otherwise the trimmed edits are sent. On failure the names, the dialog and the "Saved" flag are unchanged and the error is set. On success the names become the trimmed edits, the dialog closes, no error is shown, "Saved" is shown and saving is false, and the button starts with the saved first name. |

## Left out

- Network I/O is not modelled: `fetch`, Supabase queries, `getUser`, the upsert and `createBrowserClient`. Each is an outcome given as a parameter, or a transport function from request to outcome for the pipeline.
- JSON parsing is not modelled. Bodies are decoded `Json` values, and numbers in them are integers.
- The `File` is only its content type. Its bytes are not modelled.
- Promise scheduling and concurrency between handlers are not modelled. Each `await` splits a handler into a start method and a finish method. The `isMounted`/`mounted` guards are a boolean parameter.
- `setTimeout` is not modelled, so `savedMessageVisible` is set on success but never cleared.
- `console.error` logging is not modelled; it changes no state.
- The `Expires` date (`Date.toUTCString`) is an already formatted string that is present exactly when the option is truthy.
- `secure` and `httpOnly` are their truthiness.
- `Max-Age` is rendered for integers only. Fractional, NaN and infinite numbers are not modelled.
- `toLowerCase`/`toUpperCase` change ASCII letters only. `trim` uses ECMAScript's full whitespace set.
- `row.id` and `count` are integers when numeric, so `String(number)` is integer decimal rendering.
- Middleware `config.matcher` is not modelled; the framework applies it.
- URL parsing is not modelled. The redirect target is the request's origin followed by `/login`.
- The request headers forwarded by `NextResponse.next` are not modelled. A pass-through response records the request cookies it forwards.
- The cookie options passed to `response.cookies.set` are kept whole, not rendered.
- The server client's `getAll` (`request.cookies.getAll()`) is not modelled.
- The middleware's Supabase session refresh is given as the sequence of `setAll` batches it makes.
- JSX rendering and styling are not modelled.
- Gallery state not modelled: `imageErrors`, `viewMode`, `selectedRow`, the Escape-key effect and the body overflow style.
- `useMemo` caching is not modelled. `rowsByKey`/`filteredRows` are functions of the current state (`GalleryPage.Shown`).
- In the header, `supabase` is the memoised client, whose caching `BrowserCookies.ClientCache` models.
- The `if (!user) return null` render guard is the `user.Some?` requirement of `ProfileEditor.Display`.
- The pipeline's optional `onStepUpdate` is not modelled as a callback. `events` is what a callback would receive, and an absent callback changes nothing else.
- A callback that throws is not modelled. One that throws outside a `try` would end the run there, and one that throws inside a `catch` would replace the step's error. The app's one caller only records the update in React state.
- Pipeline.NullAccess: the TypeError message for reading a property of `null` follows V8's wording; other JavaScript engines word it differently.
- Pipeline.RunCaptionPipeline: the one source function is four methods, one per `try`/`catch` block, each ending with the next block. The order of operations is unchanged.
- BrowserCookies.SerializeCookie: each conditional `parts.push` is written as appending a one-element or empty sequence. The parts and their order are the same.
- ProfileHeader.ProfileEditor.FinishSave: it requires the sent names to be trimmed. Every request `BeginSave` returns satisfies this, since the source's continuation uses the names it trimmed before the `await`.
- Other files are not modelled:
  - the upload and login pages
  - `ProfileModal`
  - `LogoutButton`
  - the auth callback route
  - the sidebar
