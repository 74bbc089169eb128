# Daily Journal client core, modelled in Dafny

Daily Journal is a Next.js web app that keeps a journal in the user's Google Drive and
attaches Google Photos media to entries. This project models the client-side logic
that decides what the app does:

- the API client hooks that refresh the OAuth access token before it expires, set the
  `Authorization` header and absorb failed responses. Both revisions are modelled: ky in
  `src/helpers/ky.ts`, and axios in `src/helpers/axios.ts`.
- the error and success notifications, and their banners' close handlers.
- the OAuth redirect page: the scope check, the one-time code exchange and storing the
  session.
- the application shell:
  - the consent-screen URL
  - sign-out
  - the start-up effect that turns query parameters into notifications and loads the
    stored settings
  - the image scale-and-name modal
- the Drive helper's find-or-create of the journal's root folder.
- the entries page: the search filter, and a result table that a fresh search replaces
  and scrolling extends.
- the Google Photos helper: the search body, and the batched lookup of media by id.
- the photo picker: loading pages, grouping by date, toggling the selection per photo or
  per date, and handing the selection over.
- the media viewer: wrap-around stepping and deletion.
- the file picker's checks, and the media picker's compression and the acceptance of a
  pick. The intended acceptance is all-or-nothing; as written, a refused file makes the
  handler throw halfway (see Findings).

State the source keeps in global stores or component state is a Dafny `class` whose
handlers are methods with `modifies` clauses. Examples: `State.Session`,
`Entries.EntriesPage`, `PhotoSelect.Picker`, `FileInput.Picker` and `MediaInput.Input`.
Pure decisions are functions, and the methods are proved against them.

The environment becomes parameters:

- The reply of every remote call: the token endpoint, userinfo, Drive and Photos.
- The clock reading.
- The browser origin and path.
- The compressors.
- `formatFileSize` and `dateInput`.
- Object URLs, which are natural-number tokens minted in order.

Where the source and its description disagree, the model follows the source:

- A token refresh is not coalesced. Each request inside the one-minute window starts its
  own refresh.
- Find-or-create of the Drive folder is not idempotent. The folder it creates is named
  `My Folder`, not `Daily Journal`, so a second call does not find it and creates
  another (`Drive.UploadTwice`).
- `uploadFile` only resolves the parent folder. It never sends the file and returns
  nothing.

## Model

| member | source | states |
|---|---|---|
| State.Session.constructor | src/helpers/state.ts:3-9 | the session starts signed out: all four user fields empty, token `''` expiring at 0 |
| State.Settings.constructor | src/helpers/state.ts:21-23 | no image ids and an empty template at start |
| State.Banner.constructor | src/helpers/state.ts:11-19 | a banner starts hidden with an empty message |
| State.Session.SignOut | src/pages/_app.tsx:63-69 | the token becomes `{'', 0}` and every user field becomes empty |
| Query.Get | src/pages/loading.tsx:11-12 | `URLSearchParams.get`: absent exactly when no pair has the key; otherwise the value of the first pair with that key |
| Notification.Message | src/helpers/notification.ts:3-11 | a string is shown verbatim; otherwise the first non-empty of response data, message and `Error`, so a thrown value never gives an empty message |
| Notification.Error | src/helpers/notification.ts:3-13 | the error banner shows that message |
| Notification.Success | src/helpers/notification.ts:15-17 | the success banner shows the message unchanged |
| Ky.Refreshed | src/helpers/ky.ts:35-65 | a granted refresh replaces token and expiry (`now + expires_in*1000`) and keeps the user; `invalid_grant` signs out fully and redirects to `?error=Please log in again`; any other failure changes nothing; the catch block throws exactly when no error code can be read; the user is never partly changed |
| Ky.CaughtCodeAsWritten | src/helpers/ky.ts:52-54 | the catch block as written reads no error code from any ky error: `e?.response.data` is absent on a fetch `Response` and throws without one |
| Ky.InvalidGrantIgnoredAsWritten | src/helpers/ky.ts:52-63 | as written, an `invalid_grant` answer leaves the session as it was and the catch block throws |
| Ky.CaughtCode | src/helpers/ky.ts:52-54 | the code read from the response body: always readable, the body's `error` when present, never `invalid_grant` otherwise |
| Ky.Reply | src/helpers/ky.ts:37-53 | a grant passes its token and lifetime; a failure carries the code `Ky.CaughtCode` reads |
| Ky.InvalidGrantSignsOut | src/helpers/ky.ts:52-63 | with the code read from the body, no failure throws; `invalid_grant` signs out and redirects; any other failure changes nothing |
| Ky.RefreshAccessToken | src/helpers/ky.ts:35-65 | the session and outcome after the call are those `Ky.Refreshed` gives for the reply as `Ky.Reply` reads it |
| Ky.BeforeRequestEffect | src/helpers/ky.ts:10-21 | no token means no header and no refresh; outside the 60 s window the session is untouched; inside it the session is what the refresh left and the redirect is the one a settled refresh asked for; the request is abandoned exactly when the refresh threw; a sent request with a token carries `Bearer` and the token held after the refresh |
| Ky.BeforeRequest | src/helpers/ky.ts:10-21 | the hook's new session, request and redirect are those `Ky.BeforeRequestEffect` gives for the reply as `Ky.Reply` reads it |
| Ky.AfterResponse | src/helpers/ky.ts:23-30 | the result is always a 2xx response; a failure reports its body text and becomes an empty response; a success passes unchanged and reports nothing |
| Axios.RefreshAccessToken | src/helpers/axios.ts:10-38 | the axios refresh decides exactly as `Ky.Refreshed` |
| Axios.RequestInterceptor | src/helpers/axios.ts:40-48 | the request interceptor has exactly the effect `Ky.BeforeRequestEffect` gives |
| Axios.ResponseInterceptor | src/helpers/axios.ts:50-56 | a success passes its data and leaves the banner alone; a rejection resolves to `{}` and shows the error banner with the derived message |
| Loading.Page.constructor | src/pages/loading.tsx:7 | `firstMount` starts set |
| Loading.InitialRun | src/pages/loading.tsx:10-47 | the exchange sends the query's `code` and the `/loading` redirect; a failed exchange changes nothing and redirects with the error detail when that detail can be read, and otherwise throws; a granted one stores the token first; the user (with the exchange's refresh token) is stored only when the profile arrives, then the page goes home |
| Loading.Effect | src/pages/loading.tsx:49-60 | without `drive.file` in `scope` it only redirects to the error; with it, the exchange runs exactly when `firstMount` was set, clears it, sends the query's `code` with the `/loading` redirect, and leaves the session and redirect `Loading.InitialRun` leaves |
| Loading.MountTwice | src/pages/loading.tsx:49-60 | two mounts in a row exchange the code at most once: never on the second |
| App.LogInUrlParams | src/pages/_app.tsx:48-53 | the sign-in URL is the auth endpoint with exactly the client id, the `/loading` redirect, the space-joined scopes and the code/offline/granted-scopes/consent flags, in that order |
| App.RequestedScopesIncludeDrive | src/helpers/constants.ts:1-6 | the requested scope list contains the `drive.file` scope the loading page requires |
| App.LogOut | src/pages/_app.tsx:58-72 | revokes the refresh token held before clearing, signs out fully, goes to `/about` |
| App.CollectSound | src/pages/_app.tsx:80-89 | every raised notice carries the non-empty value of its own kind's query parameter |
| App.CollectComplete | src/pages/_app.tsx:80-89 | a checked kind raises a notice exactly when its parameter is present and non-empty |
| App.CollectOrdered | src/pages/_app.tsx:80-89 | kinds checked in rank order raise notices in rank order |
| App.StartupNotices | src/pages/_app.tsx:80-89 | the start-up notices: one per kind whose parameter is non-empty, carrying its value, in the order error, success, warning, info |
| App.StartupStep | src/pages/_app.tsx:91-98 | no email means no remote call; a failed search stops; no files found creates the root folder; otherwise settings are loaded (each case iff its condition) |
| App.StartupEffect | src/pages/_app.tsx:91-106 | only the load case stores image ids and template; every other case leaves the settings unchanged |
| App.ImageScale.SetOpen | src/pages/_app.tsx:213-216 | the modal's open state follows the argument and `[undefined, '']` is submitted; width and name are kept |
| App.ImageScale.Save | src/pages/_app.tsx:221-227 | hides the modal and submits the current width and name |
| App.ImageNameOptions | src/pages/_app.tsx:234-237 | `photo` labelled `None` first, then one option per stored id, labelled by itself, in order |
| GlobalLazyComponents.LogOut | src/components/GlobalLazyComponents.tsx:23-39 | closes the dialog, revokes the refresh token held before clearing, signs out fully, and navigates to `/` exactly when not already there |
| GlobalLazyComponents.HandleClose | src/components/GlobalLazyComponents.tsx:41-55 | a `clickaway` close keeps the banner shown; any other close hides it; the message is kept |
| Drive.Matching | src/helpers/drive.ts:11-15 | the ids the name-and-type query returns: an id is listed iff a file with that name, type and id exists |
| Drive.CreatedFolderNotFound | src/helpers/drive.ts:17-26 | the folder `uploadFile` creates is not found by its own query |
| Drive.UploadFile | src/helpers/drive.ts:3-32 | a non-empty parent makes no call; a failed listing stops after it; no match creates `My Folder` and resolves to its id, or, when the create fails, leaves the Drive unchanged and no parent; otherwise the first match's id |
| Drive.UploadTwice | src/helpers/drive.ts:3-32 | with no `Daily Journal` folder, two calls create two folders |
| Entries.StarredConstraint | src/pages/entries.tsx:27 | `undefined` gives no constraint; otherwise the constraint is true iff the select says `true` |
| Entries.Filter | src/pages/entries.tsx:23-34 | one match; an empty query gives no text constraint; the starred constraint from the select; the order and the current cursor |
| Entries.SearchScope | src/pages/entries.tsx:28-29 | a title search admits exactly folders other than `Daily Journal`; a content search admits exactly HTML files other than `template.html` |
| Entries.ToRows | src/pages/entries.tsx:37-41 | one row per file: title from the description, date from the name, the starred flag |
| Entries.AfterSearch | src/pages/entries.tsx:35-43 | a failed search changes nothing; otherwise the rows replace or, when concatenating, follow the old rows, and the cursor is the page's token or empty |
| Entries.ScrollAccumulates | src/pages/entries.tsx:42-43 | scrolling through pages appends every page's rows in order and leaves the last page's cursor |
| Entries.EntriesPage.constructor | src/pages/entries.tsx:12-19 | the form starts on a title search, descending, any starred state, with no rows and no cursor |
| Entries.EntriesPage.HasMore | src/pages/entries.tsx:108 | more pages are offered iff the cursor is non-empty |
| Entries.EntriesPage.Search | src/pages/entries.tsx:22-44 | sends the filter with the old cursor (a fresh search too) and moves to the `Entries.AfterSearch` state; the form is unchanged |
| Entries.EntriesPage.Mount | src/pages/entries.tsx:46-53 | without an email navigates to `/about` and changes nothing; otherwise runs a fresh search |
| Photos.Part | src/helpers/photos.ts:15 | destructuring past the end of the split is absent |
| Photos.SearchBodyFor | src/helpers/photos.ts:10-27 | page size 100; the page token is sent iff non-empty; a date filter is sent iff the date is non-empty, with one date |
| Photos.DateFilterOfDate | src/helpers/photos.ts:14-27 | a `Y-M-D` date filters on exactly that year, month and day |
| Photos.Batches | src/helpers/photos.ts:38-40 | `ceil(n/50)` batches |
| Photos.BatchesCover | src/helpers/photos.ts:38-40 | the batches, concatenated in order, are exactly the ids |
| Photos.BatchSizes | src/helpers/photos.ts:38-40 | every batch holds between 1 and 50 ids |
| Photos.Items | src/helpers/photos.ts:56-58 | one item per result, the result's `mediaItem`, absent ones included |
| Photos.Replies | src/helpers/photos.ts:41-49 | one reply per batch, in batch order |
| Photos.GetPhotos | src/helpers/photos.ts:37-60 | fails iff some batch's reply is missing or empty; otherwise the items of every batch in batch order; no ids gives an empty list |
| Photos.OneResultPerId | src/helpers/photos.ts:37-60 | when every batch is answered in full, the lookup succeeds with one result per requested id |
| PhotoSelect.KindOf | src/components/PhotoSelect.tsx:34 | an image iff the MIME type starts with `image` |
| PhotoSelect.ToMediaFiles | src/components/PhotoSelect.tsx:47-52 | one picker photo per item, in order: id, base URL, formatted creation date, kind |
| PhotoSelect.LoadedAsWritten | src/components/PhotoSelect.tsx:28-37 | the as-written concatenation keeps the old photos and, for a reply without items, appends a hole |
| PhotoSelect.LoadMoreHole | src/components/PhotoSelect.tsx:28-37 | a reply carrying only a page token leaves a hole in the photo list |
| PhotoSelect.Loaded | src/components/PhotoSelect.tsx:28-37 | the old photos are kept as a prefix, followed by the reply's items; a reply without items adds nothing |
| PhotoSelect.LoadedAgrees | src/components/PhotoSelect.tsx:28-37 | on replies with items, the corrected and as-written loads agree photo for photo |
| PhotoSelect.Dates | src/components/PhotoSelect.tsx:63-66 | each photo's date, in order |
| PhotoSelect.DedupElements | src/components/PhotoSelect.tsx:63-66 | the grouped dates are exactly the dates present |
| PhotoSelect.DedupDistinct | src/components/PhotoSelect.tsx:63-66 | no date is grouped twice |
| PhotoSelect.DedupFirstOccurrence | src/components/PhotoSelect.tsx:63-66 | the groups come in the order of each date's first occurrence |
| PhotoSelect.IdsOn | src/components/PhotoSelect.tsx:85-87 | an id is listed iff a photo with it was taken on that date |
| PhotoSelect.IdsOnDistinct | src/components/PhotoSelect.tsx:85-87 | with distinct photo ids, a date's id list has no duplicates |
| PhotoSelect.ToggledOne | src/components/PhotoSelect.tsx:123-129 | the clicked photo becomes selected iff it was not; no other photo changes |
| PhotoSelect.ToggledOneDistinct | src/components/PhotoSelect.tsx:123-129 | a single toggle never selects a photo twice |
| PhotoSelect.ToggledDate | src/components/PhotoSelect.tsx:85-100 | all of a date selected: exactly those are deselected; otherwise the selection is kept as a prefix and becomes the union with the date's photos |
| PhotoSelect.ToggledDateDistinct | src/components/PhotoSelect.tsx:85-100 | with distinct photo ids, a date toggle never selects a photo twice |
| PhotoSelect.ToggledDateTwice | src/components/PhotoSelect.tsx:85-100 | toggling a date twice restores the selected set, from a state with all or none of the date selected |
| PhotoSelect.SelectedPhotos | src/components/PhotoSelect.tsx:172 | exactly the photos whose id is selected, each as many times as it occurs among the photos |
| PhotoSelect.SelectedPhotosAppend | src/components/PhotoSelect.tsx:172 | the selection of two runs of photos is the selection of the first followed by that of the second, so photo order is kept |
| PhotoSelect.SelectedPhotosAll | src/components/PhotoSelect.tsx:172 | when every photo is selected, all photos are handed over in their own order |
| PhotoSelect.Picker.constructor | src/components/PhotoSelect.tsx:19-23 | closed, no photos, no selection, no cursor; the date is the initial date or today |
| PhotoSelect.Picker.DateChanged | src/components/PhotoSelect.tsx:41-56 | searches the picked date from the first page; a reply clears the selection and replaces the photos (none without items) and the cursor |
| PhotoSelect.Picker.FollowInitialDate | src/components/PhotoSelect.tsx:58-60 | a non-empty initial date becomes the picked date; nothing else changes |
| PhotoSelect.Picker.LoadMore | src/components/PhotoSelect.tsx:25-39 | requests the old cursor's page for the same date; a reply gives the `PhotoSelect.Loaded` photos and the new cursor, selection kept |
| PhotoSelect.Picker.GroupDates | src/components/PhotoSelect.tsx:63-66 | the loop yields each photo date once, every present date, in first-occurrence order |
| PhotoSelect.Picker.ToggleOne | src/components/PhotoSelect.tsx:122-130 | the selection becomes `PhotoSelect.ToggledOne` of the old one |
| PhotoSelect.Picker.ToggleDate | src/components/PhotoSelect.tsx:84-101 | the selection becomes `PhotoSelect.ToggledDate` over that date's ids |
| PhotoSelect.Picker.Upload | src/components/PhotoSelect.tsx:169-172 | hands over the selected photos, clears the selection and closes |
| MediaDialog.JsRem | src/components/MediaDialog.tsx:25 | JavaScript's `%`: bounded by the divisor, sign of the dividend, and below twice the divisor a single wrap |
| MediaDialog.Back | src/components/MediaDialog.tsx:24-30 | opens the dialog; from a valid index steps back one, wrapping from the first to the last |
| MediaDialog.Next | src/components/MediaDialog.tsx:32-38 | opens the dialog; from a valid index steps forward one, wrapping from the last to the first |
| MediaDialog.BackNextInverse | src/components/MediaDialog.tsx:24-38 | Back and Next keep a valid index valid and undo each other |
| MediaDialog.FilterOutIndexRemoves | src/components/MediaDialog.tsx:46 | the filter removes exactly the element at the index, the others kept in order |
| MediaDialog.FilterOutIndexKeeps | src/components/MediaDialog.tsx:46 | with no element at the index the filter keeps everything |
| MediaDialog.Delete | src/components/MediaDialog.tsx:40-47 | without `setFiles` nothing happens; otherwise the current file is removed; deleting the last file moves back one place, or closes the dialog when it was the only one |
| MediaDialog.DeleteKeepsIndexValid | src/components/MediaDialog.tsx:40-47 | a delete that leaves files leaves the index on one of them |
| FileInput.Check | src/components/FileInput.tsx:48-85 | size is checked first, then type; rejected by size iff the limit is on and some file exceeds it; accepted iff non-empty and every file passes both; ignored iff empty |
| FileInput.NoTypesRejectAll | src/components/FileInput.tsx:61-72 | an empty type list rejects every non-empty selection |
| FileInput.FileNames | src/components/FileInput.tsx:77 | the names of the files, in order |
| FileInput.RequirementsNone | src/components/FileInput.tsx:116-125 | no hint without size limit or type list |
| FileInput.RequirementsSize | src/components/FileInput.tsx:116-125 | a size limit alone gives `(Must be under …)` |
| FileInput.RequirementsTypes | src/components/FileInput.tsx:116-125 | a type list alone gives the capitalised type hint |
| FileInput.RequirementsBoth | src/components/FileInput.tsx:116-125 | both are joined with ` and `, the type hint in lower case |
| FileInput.Picker.constructor | src/components/FileInput.tsx:37-38 | empty selection, empty shown name, no error |
| FileInput.Picker.OnChange | src/components/FileInput.tsx:48-85 | a rejected selection is cleared and reported, not handed on; an empty one changes nothing; an accepted one is handed on (all files, or the first), its names shown, the error cleared and the input emptied |
| MediaInput.Target | src/components/MediaInput.tsx:86-88 | `round` asks for 512 by 512; fixed dimensions are passed through; none gives none |
| MediaInput.CompressorChoice | src/components/MediaInput.tsx:83-104 | no compressor iff the type does not contain `image`; GIF iff exactly `image/gif`; HEIC iff not GIF and containing `image/heic` |
| MediaInput.Kept | src/components/MediaInput.tsx:82-105 | the kept blob is never larger than the file; it is the original or the compressed blob, and the compressed one whenever it did not grow |
| MediaInput.Processed | src/components/MediaInput.tsx:105-114 | a file is refused iff a size limit is set and its kept blob exceeds it; an accepted blob is within both the file size and the limit |
| MediaInput.ProcessFile | src/components/MediaInput.tsx:81-115 | returns the `MediaInput.Processed` outcome and reports the too-large message iff the file is refused |
| MediaInput.InnerPickerChecksTypesOnly | src/components/MediaInput.tsx:75 | the inner picker, given no size limit, rejects a selection iff a file has a type outside the list |
| MediaInput.Picked | src/components/MediaInput.tsx:78 | a single file is wrapped in a one-element list |
| MediaInput.ProcessAll | src/components/MediaInput.tsx:80-116 | one outcome per file in order; the error banner is set iff some file is refused |
| MediaInput.Input.constructor | src/components/MediaInput.tsx:70 | no live URLs at start |
| MediaInput.Input.Replace | src/components/MediaInput.tsx:118-123 | revokes every live URL, mints one fresh URL per blob in order and keeps the registry consistent |
| MediaInput.Input.OnChange | src/components/MediaInput.tsx:77-129 | the handler with line 117's test read as "some file was refused", the corrected half of the MediaInput Findings row: nothing picked changes nothing; any refused file hands nothing on and keeps the URLs; otherwise the old URLs are revoked, new ones minted in order, and the list (or its first item in single mode) is handed on |
| MediaInput.FindRefused | src/components/MediaInput.tsx:117 | `find((file) => !file)` yields `undefined` on every input, so the early return is never taken |
| MediaInput.FirstRefused | src/components/MediaInput.tsx:119-122 | the index at which minting stops: every file before it was accepted, and the file at it was refused |
| MediaInput.Input.OnChangeAsWritten | src/components/MediaInput.tsx:77-129 | the handler as written: an all-accepted pick behaves as `MediaInput.Input.OnChange`; a pick with a refused file revokes the live URLs, mints URLs only for the files before the first refused one, throws, hands nothing on and leaves the revoked URLs in `urls`, so the registry is inconsistent whenever a URL was live |
| MediaInput.RefusedPickRevokesLive | src/components/MediaInput.tsx:105-123 | with a 1000-byte limit, a 500-byte pick followed by a 2000-byte pick throws and leaves a revoked URL live |

## Left out

- Network calls, the clock, `location`, `console.log` and `Persistence` attachment: replies, readings and the origin are parameters; logging and persistence are not modelled.
- Concurrency: the interleaving of overlapping refreshes and of `Promise.all` branches is not modelled; each call is a single atomic step.
- Ky.Refreshed: whether the catch block can read an error code is a parameter, shared with the axios revision, where a response's `data` is set and only a failure without a response throws. The ky revision reads the code through `Ky.CaughtCode` (see Findings).
- Loading.InitialRun: the failure detail is a parameter. As written, the catch block reads `e?.response.data` from a ky error, which a fetch `Response` does not carry, so it throws and the redirect does not happen. The redirect path models the evident intent.
- `getRootFolderId`, `searchFiles`, `getFile`, `fileListToMap` and `paginateFiles` are not part of this model. The start-up effect sees only how many settings files the search found; the entries page sees `paginateFiles`' reply.
- `googlePhotos` is not exported by the `ky.ts` shown; the Photos calls are parameters.
- Ky.AfterResponse: it reports through the component library's `error`, so only the reported text is modelled, not that library's banner.
- Notification.Message: numeric or boolean `response.data` and the `toString` of non-string messages are not modelled; data is absent, an object with its given JSON text, or a string.
- Query.Get: percent-decoding of the query string is not modelled; pairs are taken as already decoded.
- MediaDialog.Back: requires a non-empty file list (the dialog is shown over one); with none JavaScript's `%` gives `NaN`.
- MediaDialog.Next: requires a non-empty file list, for the same reason.
- Entries.Filter: requires one of the select's three values; `JSON.parse` of any other string is not modelled.
- Entries.StarredConstraint: requires one of the select's three values, for the same reason.
- PhotoSelect.ToggledDateTwice: holds only from a state with all or none of that date's photos selected. From a partial selection, the first toggle selects the rest and the second deselects all of them.
- MediaDialog.DeleteOffered: the visibility test of the Delete button is a predicate without a contract of its own.
- Rendering, hotkeys, the slideshow and the editor are not modelled; neither is the effect of `order` on Drive's sorting (it is passed through).
- The compressors (`compressorjs`, `gifsicle`, `heic2any`) are uninterpreted functions. Their quality settings and the URL `compressGif` creates internally are not modelled.
- Drive.UploadFile: the file itself and the Drive file's other fields are not modelled; the resolved parent is ghost because the source never uses it.

## Findings

| source | as written | input that shows it | evidently intended | confidence | as-written member | corrected member |
|---|---|---|---|---|---|---|
| src/helpers/ky.ts:52-63 | the catch block reads `e?.response.data`, an axios field that a ky `HTTPError`'s fetch `Response` does not have, so `err.error` throws and the `invalid_grant` sign-out never runs | a refresh answered with status 400 and body `{"error": "invalid_grant"}` | read the code from the response body, so that a revoked refresh token signs the user out and asks for a new log-in | not executed | Ky.CaughtCodeAsWritten | Ky.CaughtCode |
| src/components/PhotoSelect.tsx:28-37 | `photos.concat(results.mediaItems?.map(…))` appends `undefined` when a reply has no `mediaItems`; the date grouping then reads `photo.date` of `undefined` | a load-more reply `{nextPageToken: "next"}` with no `mediaItems` | fall back to `[]`, as the date effect at lines 46-53 does | not executed | PhotoSelect.LoadedAsWritten | PhotoSelect.Loaded |
| src/components/MediaInput.tsx:117 | `newFiles.find((file) => !file)` returns the refused entry, which is `undefined` and so falsy, so the early return never fires; line 118 revokes every live URL and line 121 throws at `URL.createObjectURL(undefined)` before `setUrls` runs | a picker with `maxSize` 1000 and one live URL, given a 2000-byte file that no compressor shrinks | stop before revoking when some file was refused (`some` instead of `find`), so a refused pick changes no URL | not executed | MediaInput.Input.OnChangeAsWritten | MediaInput.Input.OnChange |
