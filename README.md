# Meme marketplace front end — verified model of its client-side logic

This project models, in Dafny, the self-contained logic of the marketplace's web front end:

- **CDN URL rewriting** (`src/lib/cloudfront.ts`): an image reference — a relative path, or an absolute
  storage or API URL — is sent to `https://<domain>/<path>`. The exceptions: a missing or empty input
  gives `''`, and an input that already contains the domain, or an unparseable `http…` URL with no
  media segment, comes back unchanged.
- **The client-side image store** (`src/stores/imageStore.ts`): a class with the fields `images`,
  `filteredImages`, `searchTerm`, `loading` and `uploading`, and one method per store action.
- **The meme query hooks** (`src/hooks/useMemes.ts`): the cache updates after upload, delete and update,
  the file checks and abort steps of the two-step presign-then-PUT upload, the capped exponential retry
  delay, and the CDN mapping of fetched memes.
- **The API client** (`src/lib/api.ts`): a class holding the mutable bearer token and the base URL, with the
  header, URL and status-to-error rules of `request` and the unwrapping of the list endpoints.
- **The access-token lifecycle** (`src/lib/auth.ts`): `authorize`, the `jwt` and `session` callbacks and
  `refreshAccessToken`.
- **Boost helpers** (`src/app/admin/boosts/page.tsx`): days remaining, the "Expiring Soon" threshold and the
  type-to-colour lookup.

Everything outside the program is an input. The network calls are function parameters: `fetch`, presign,
PUT, login and refresh. The WHATWG URL parser is a parameter `parse: string -> Option<string>`, giving
the pathname, or `None` when the constructor throws. The clock is an integer millisecond parameter. The
CDN domain is a parameter, and `CloudFront.ResolveDomain` models how the environment sets it.

Files: `wrappers.dfy` (Option, Result), `text.dfy` (JavaScript string operations), `seqs.dfy`
(`filter` and its laws), `types.dfy` (the shared `Meme` record, `Partial` overlays, update and remove by
id), and one file per source file: `cloudfront.dfy`, `image_store.dfy`, `memes.dfy`, `api.dfy`,
`auth.dfy`, `boosts.dfy`.

The image store's `ImageData` and the hooks' `Meme` have the same keys, so both use `Types.Meme`.

## Model

| member | source | states |
|---|---|---|
| Types.UpdateById | src/stores/imageStore.ts:69-71 | the list keeps its length; elements with the id get the patch's keys overlaid, all others are unchanged |
| Types.RemoveByIdSpec | src/stores/imageStore.ts:84 | after `filter(img => img.id !== id)` no element has the id, every other element keeps all its copies, and order is kept (subsequence) |
| Types.RemoveAbsentId | src/stores/imageStore.ts:84 | removing an id no element carries leaves the list unchanged |
| Types.UpdateThenRemove | src/stores/imageStore.ts:67-91 | an update whose patch leaves the id alone or repeats it changes nothing that survives a later removal of the same id |
| Types.UpdateByIdIdempotent | src/stores/imageStore.ts:69-71 | applying the same update twice equals applying it once, for every patch |
| Types.OverlayIdempotent | src/stores/imageStore.ts:70 | spreading the same patch twice equals spreading it once |
| Types.OverlayFullRecord | src/hooks/useMemes.ts:102 | spreading a server record takes all its required keys, and takes each optional key (`filename`, `mimeType`, `description`, `category`, `path`) only where the record has it |
| CloudFront.ResolveDomain | src/lib/cloudfront.ts:6 | the domain is the environment's value when non-empty, otherwise exactly the built-in default `d2cjbd1iqkwr9j.cloudfront.net` |
| CloudFront.GetCloudFrontUrl | src/lib/cloudfront.ts:12-47 | the result is empty iff the input is missing or empty; an input containing the domain comes back unchanged; any other changed result starts with `https://<domain>/` |
| CloudFront.DropLeadingSlash | src/lib/cloudfront.ts:43 | at most one leading slash is removed |
| CloudFront.DropPrefix | src/lib/cloudfront.ts:29-31 | an anchored prefix is removed exactly when present |
| CloudFront.MediaMatchHere | src/lib/cloudfront.ts:34 | a match anchored at the front exists iff the input starts with `/memes/` or `/user-uploads/` followed by a character that is not a line terminator; it then runs greedily up to the first line terminator or the end, `memes` tried first |
| CloudFront.MediaMatch | src/lib/cloudfront.ts:34 | the match occurs in the input, starts with `/memes/` or `/user-uploads/` and has at least one more character; it is the match at the leftmost position where one starts |
| CloudFront.MediaMatchNone | src/lib/cloudfront.ts:34-35 | there is no match iff no position of the input starts one |
| CloudFront.CdnUrlContainsDomain | src/lib/cloudfront.ts:46 | every rewritten URL contains the domain |
| CloudFront.Idempotent | src/lib/cloudfront.ts:16-46 | rewriting a rewritten URL returns it unchanged |
| CloudFront.RelativePath | src/lib/cloudfront.ts:41-46 | a relative path loses at most one leading `/` and is placed under `https://<domain>/` |
| CloudFront.ParsedUrl | src/lib/cloudfront.ts:22-31 | a parseable `http…` URL becomes its pathname without the leading `/`, then without `api/v1/images/view/`, then without `images/view/`, under the domain |
| CloudFront.UnparsedUrl | src/lib/cloudfront.ts:32-39 | an unparseable `http…` URL keeps the first `/memes/…` or `/user-uploads/…` segment, without its slash, or is returned unchanged when there is none |
| CloudFront.LeadingSlashIrrelevant | src/lib/cloudfront.ts:41-46 | a relative key and the same key with a leading slash give the same CDN URL |
| CloudFront.StorageUrlAgreesWithKey | src/lib/cloudfront.ts:22-46 | a storage URL whose pathname is `/<key>` and the bare key give the same CDN URL |
| CloudFront.TransformImageUrls | src/lib/cloudfront.ts:52-57 | same length and order; each item is the item with its `url` rewritten |
| CloudFront.TransformKeepsOtherFields | src/lib/cloudfront.ts:52-57 | only `url` differs from the input item; an empty url stays empty and no other url becomes empty |
| CloudFront.TransformIdempotent | src/lib/cloudfront.ts:52-57 | transforming a transformed list changes nothing |
| ImageStore.SearchResultSpec | src/stores/imageStore.ts:109-126 | a blank term selects all images; any other term selects exactly the matching images, in order (subsequence), with every copy of a match kept |
| ImageStore.EmptyTermMatchesAll | src/stores/imageStore.ts:117-123 | the empty string is included in every name, so the empty term matches every image |
| ImageStore.SearchIgnoresCase | src/stores/imageStore.ts:118-122 | searching for the lower-cased term selects the same images as the term itself |
| ImageStore.RemoveCommutesWithSearch | src/stores/imageStore.ts:82-91 | removing an id from the search result equals searching the list with that id removed |
| ImageStore.AddThenRemove | src/stores/imageStore.ts:53-85 | prepending an image with a new id and then removing that id restores the list |
| ImageStore.Store.constructor | src/stores/imageStore.ts:43-47 | empty lists, empty term, both flags false, and the filtered list consistent with the search |
| ImageStore.Store.SetImages | src/stores/imageStore.ts:49-51 | both lists become the given list; nothing else changes |
| ImageStore.Store.AddImage | src/stores/imageStore.ts:53-65 | `images` is the new image followed by the old list in order; `filteredImages` is `images` when the term is empty, else the search result over the new list; the term and the flags are kept |
| ImageStore.Store.UpdateImage | src/stores/imageStore.ts:67-80 | both lists are updated by id and keep their lengths; the term and the flags are kept |
| ImageStore.Store.RemoveImage | src/stores/imageStore.ts:82-91 | neither list keeps an element with the id; both are subsequences of what they were; a filtered list consistent with the search stays consistent |
| ImageStore.Store.SetSearchTerm | src/stores/imageStore.ts:93-95 | only the term changes; nothing is re-filtered |
| ImageStore.Store.SetFilteredImages | src/stores/imageStore.ts:97-99 | only `filteredImages` changes |
| ImageStore.Store.SetLoading | src/stores/imageStore.ts:101-103 | only `loading` changes |
| ImageStore.Store.SetUploading | src/stores/imageStore.ts:105-107 | only `uploading` changes |
| ImageStore.Store.SearchImages | src/stores/imageStore.ts:109-126 | the term is always stored; a blank term shows all images, any other exactly the matching images in order; images and flags are kept |
| ImageStore.Store.ClearSearch | src/stores/imageStore.ts:128-131 | the term becomes empty and `filteredImages` becomes `images` |
| Memes.RetryDelay | src/hooks/useMemes.ts:37 | the delay is between 1000 and 30000 milliseconds |
| Memes.RetryDelayMonotone | src/hooks/useMemes.ts:37 | the delay never decreases from one attempt to a later one |
| Memes.RetryDelaySchedule | src/hooks/useMemes.ts:37 | the delay is `1000·2^attempt` up to attempt 4 and 30000 from attempt 5 on |
| Memes.FetchedMemesSpec | src/hooks/useMemes.ts:27-32 | fetched memes keep order and every key except `url`, which goes through the CDN helper; mapping them again changes nothing |
| Memes.CacheAfterDelete | src/hooks/useMemes.ts:69-73 | an absent cache stays absent, a present one stays present |
| Memes.CacheAfterDeleteSpec | src/hooks/useMemes.ts:69-73 | the cached list loses exactly the entries with the deleted id; other entries keep their copies and order |
| Memes.CacheAfterUpdate | src/hooks/useMemes.ts:98-104 | an absent cache stays absent; a present one keeps its length |
| Memes.CacheAfterUpdateSpec | src/hooks/useMemes.ts:98-104 | entries with the server record's id take its required keys and each of the five optional keys it carries, keeping their own otherwise; other entries are unchanged |
| Memes.CacheAfterUpdateIdempotent | src/hooks/useMemes.ts:98-104 | merging the same server record twice equals merging it once |
| Memes.ValidateFile | src/hooks/useMemes.ts:121-127 | a file passes iff its MIME type starts with `image/` and its size is at most 10·1024·1024; the type is checked first, with its own message |
| Memes.SizeBoundary | src/hooks/useMemes.ts:125-127 | exactly 10 MiB is accepted, one byte more is refused |
| Memes.UploadMeme | src/hooks/useMemes.ts:120-161 | a validation failure, a presign error, a missing `uploadUrl` or `key`, a PUT that throws and a PUT that is not ok each abort with their message; the upload succeeds exactly when every check passes, and then returns the presign `memeId` as id and the CDN URL of the key |
| Memes.CacheAfterUpload | src/hooks/useMemes.ts:162-175 | the cache becomes the new meme followed by the old list, or the new meme alone; its `filename` is its `originalName` |
| Memes.UploadThenDelete | src/hooks/useMemes.ts:164-174 | deleting a freshly uploaded meme with a new id gives the cache back as it was |
| Text.IntToStringRoundTrip | src/lib/api.ts:73 | the decimal text of a status or limit reads back as the same integer, sign included, as `${n}` promises |
| Api.ErrorMessage | src/lib/api.ts:61-74 | 401, 403 and 404 have fixed messages; any other status gives the body text, or `Request failed: <status>` when it is empty; the message is never empty |
| Api.Interpret | src/lib/api.ts:56-76 | a thrown `fetch` propagates; a status outside 200..299 gives the error message; an ok response gives the parsed JSON |
| Api.UnwrapMemes | src/lib/api.ts:88 | a bare array is returned as is, else the `data` field, else `[]` |
| Api.UnwrapList | src/lib/api.ts:178 | a missing wrapper field gives `[]`, a present one is returned |
| Api.MissingFieldIsEmpty | src/lib/api.ts:207-208 | an ok response whose wrapper field is missing yields an empty list, not an error |
| Api.PaymentsEndpointFor | src/lib/api.ts:202-206 | `status` only when non-empty, `limit` only when non-zero, status first; no `?` when neither is given |
| Api.Serialize | src/lib/api.ts:206 | a non-empty parameter list serializes to a non-empty query |
| Api.ApiClient.constructor | src/lib/api.ts:17-22 | the base URL is the environment's value or `''`; no token is held |
| Api.ApiClient.SetToken | src/lib/api.ts:27-29 | the held token becomes the given value |
| Api.ApiClient.GetToken | src/lib/api.ts:34-36 | returns the held token, that is, the last value set |
| Api.ApiClient.RequestHeaders | src/lib/api.ts:45-52 | `Content-Type: application/json` unless the caller overrides it; caller headers kept; `Authorization: Bearer <token>` iff a non-empty token is held, replacing the caller's |
| Api.ApiClient.BuildHeaders | src/lib/api.ts:45-52 | the headers record built and updated in place equals the declared headers |
| Api.TokenDecidesAuthorization | src/lib/api.ts:50-52 | with a token the bearer header is sent; without one no `Authorization` header is sent unless the caller gave one |
| Api.ApiClient.Request | src/lib/api.ts:41-77 | fetches `baseUrl + endpoint`, unencoded, with the request headers, and interprets the answer |
| Api.ApiClient.GetMemes | src/lib/api.ts:86-89 | requests `/api/v1/memes` and unwraps the body |
| Api.ApiClient.GetPendingListings | src/lib/api.ts:176-179 | requests the pending-listings endpoint and unwraps `listings` |
| Api.ApiClient.PaymentsEndpoint | src/lib/api.ts:202-206 | the query built one parameter at a time equals the declared payments endpoint |
| Api.ApiClient.GetPayments | src/lib/api.ts:201-209 | requests the payments endpoint for the filters and unwraps `payments` |
| Api.ApiClient.GetActiveBoosts | src/lib/api.ts:214-217 | requests the active-boosts endpoint and unwraps `boosts` |
| Auth.Authorize | src/lib/auth.ts:43-62 | no user when email or password is missing or empty or login throws; otherwise the user id, email, both tokens and the lifetime are copied from the login answer |
| Auth.RefreshAccessToken | src/lib/auth.ts:120-141 | no refresh token, or a failed refresh, sets only the error flag; a successful refresh sets the access token and the expiry `now + expires_in·1000`, keeps the old refresh token when none is returned, and keeps the error flag as it was |
| Auth.Jwt | src/lib/auth.ts:67-86 | sign-in stores both tokens and the expiry `now + expiresIn·1000`; a token with a set, non-zero expiry in the future passes unchanged; otherwise a refresh is attempted |
| Auth.SessionOf | src/lib/auth.ts:88-99 | the session's user id is the token subject or `''`; the email is the session user's email or `''`; name and image are the session user's own (absent without a user); access token and error come from the token |
| Auth.SignedInTokenPassesThrough | src/lib/auth.ts:69-82 | a token issued at sign-in passes through unchanged for its whole lifetime |
| Auth.ExpiredWithoutRefreshTokenIsStable | src/lib/auth.ts:80-124 | an expired token without a refresh token gets the error flag, and later calls leave it as it is |
| Auth.RefreshRenewsLifetime | src/lib/auth.ts:126-133 | after a successful refresh with a positive lifetime, the token is fresh until the new expiry |
| Auth.FailedRefreshKeepsToken | src/lib/auth.ts:122-140 | a failed or impossible refresh keeps every token field and sets the error flag |
| Auth.SessionReflectsRefreshFailure | src/lib/auth.ts:88-99 | the session exposes the error flag the failed refresh set |
| Boosts.CeilDays | src/app/admin/boosts/page.tsx:46 | the result is the least `d` with `d·86400000 ≥ diff` |
| Boosts.DaysRemaining | src/app/admin/boosts/page.tsx:42-48 | never negative; 0 when the end is not after now; otherwise the least number of whole days covering the difference |
| Boosts.DaysRemainingNonIncreasing | src/app/admin/boosts/page.tsx:42-48 | the remaining days never grow as time passes |
| Boosts.ExpiringSoonWithinTwoDays | src/app/admin/boosts/page.tsx:125-129 | the badge shows iff the boost ends within 48 hours of now, ended boosts included |
| Boosts.BoostTypeColor | src/app/admin/boosts/page.tsx:30-40 | each of the six boost types maps to its own colour class; any other string maps to the gray default |

## Left out

- Rendering, routing, toasts and event handlers of the pages and components. The dashboard page and
  `MemeGrid` repeat the store's search predicate, which is modelled once, as `ImageStore.MatchesTerm`.
  The home and meme-dashboard pages filter their own local state on `originalName` alone. That
  predicate is page logic and is not modelled.
- Network I/O (`fetch`, the presign, PUT, login and refresh calls) is modelled as function parameters.
  The legacy `src/hooks/useApi.ts` is not modelled. It is a separate fetch wrapper with its own, similar
  header, error and unwrapping rules.
- TanStack Query (caching, invalidation, stale and garbage-collection times, the retry count) and the
  NextAuth and zustand machinery are library internals. Only the callbacks they run are modelled.
- The store's `localStorage` persistence and `partialize` are browser storage.
- The `useMeme` single-meme query (which also rewrites `url`), and the API client's `getMeme`,
  `deleteMeme`, `updateMeme`, `getPresignedUrl`, `login`, `refreshToken`, `getAdminStats` (which
  unwraps `data.stats`), `approveListing` and `rejectListing` are not modelled: their request building
  is left out. The presign, login and refresh calls enter the model only as the function parameters
  `presign`, `login` and `refresh` of `Memes.UploadMeme`, `Auth.Authorize` and `Auth.RefreshAccessToken`.
- Api.ApiClient.Request: the request method and body (`options` spread into the `fetch` call) are not
  modelled. `Fetch` sees only the URL and the headers, so a GET cannot be told from a DELETE, PUT or POST.
- CloudFront.GetCloudFrontUrl: WHATWG URL parsing and the regular-expression engine are not modelled.
  Parsing is the parameter `parse`. The regular expression is written out as `MediaMatch`: a leftmost
  match, with `.` excluding the four line terminators.
- ImageStore.MatchesTerm: `toLowerCase` lowers ASCII letters only. Unicode case mapping is not modelled.
- `searchImages` treats a term as blank when it consists only of the characters `trim` removes, listed in
  `Text.IsTrimmable`.
- Types.Overlay: a key that is present in a patch with the value `undefined` or `null` is treated as
  absent, because `None` stands for missing, `null` and `undefined` alike. The source would copy that
  value. This includes a server record in the update merge whose optional key is `null`, such as
  `"description": null`: the source clears the cached value, and the model keeps it.
- Api.ApiClient.RequestHeaders: caller headers are a plain record. A `Headers` object or an array of pairs,
  which spread differently, are not modelled. Header names are compared case-sensitively, as the record
  keys are.
- Api.PaymentsEndpointFor: `URLSearchParams` percent-encoding is not modelled, and `limit` is an integer
  (a NaN limit, which is falsy, is not modelled).
- Api.Interpret: a JSON body of `null`, on which the unwrapping would throw a `TypeError`, is not modelled.
- Auth.Jwt: one clock reading serves both the expiry test and the refresh, although the source reads the
  clock twice. Lifetimes are integers, so an `expires_in` that is missing (NaN) is not modelled.
- Boosts.DaysRemaining: the division is exact integer ceiling. The source divides in double precision,
  which only differs for dates hundreds of thousands of years apart. Date parsing is not modelled: the
  end date and now are given in milliseconds.
- Boosts.BoostTypeColor: inherited object keys such as `constructor`, which the source's lookup would
  resolve to a non-string, are not modelled.
- Memes.UploadMeme: the upload date (`new Date().toISOString()`) is a parameter. A missing `memeId` is
  not modelled.
- Floating-point display formatting (`toFixed`, KB sizes) is not modelled. Escrow, listing, ad and payment
  state changes happen on the backend.
