# Heart gallery: a Dafny model of its intake, form, gallery and storage logic

Heart gallery lets a visitor pick a photo, write a short message and post it.
The post then shows up as a heart-shaped card in a shared gallery. This
project models the parts of the repository that compute something or keep
state. Every module is proved against its contract.

- **Image intake** (`HeartUpload`). The photo is downscaled before upload:
  the ratio is kept and the longer edge is at most 800 pixels. A trailing
  `.ext` made of word characters is replaced by `.jpg`; a name without one
  (`photo`, `photo.`, `a.b c`) keeps its name. The file is re-typed
  `image/jpeg`. Files whose MIME type does not
  start with `image/` are ignored. If compression fails, the original file is
  handed on instead.
- **Submission form** (`SubmissionForm.MainPage`). It has five state fields.
  The nickname accepts at most 10 UTF-16 units and the message at most 30.
  Longer input is refused, not truncated. A save guard calls `onSave` and
  then resets every field. The derived `isSaveDisabled` flag is stricter
  than that guard.
- **Client gallery state**. `GalleryApp.App` models the final client and
  `DraftApp.App` models the draft client. Fetching history replaces the list
  wholesale, or empties it on any failure. A successful save prepends the
  returned record and opens the gallery. A failed save changes nothing and
  produces the alert text.
- **Draft server** (`DraftServer`). `POST /memories` validates its body,
  builds a record and stores it in a key-value store under the record's own
  id. The store is modelled as a `map`. `GET /memories` reads every
  `memory:` entry and sorts the result in place, newest first.
- **Broadcast handle** (`Socket.SocketService`). It holds a Socket.IO server
  that is absent until `setServer` is called. `emit` broadcasts one event, or
  does nothing while no server is held. With a server, a `null` or
  `undefined` payload throws when the log line reads `data.id`, so nothing is
  broadcast.
- **Storage keys and URLs**. `UploadStorage` builds the object key,
  `S3Service` builds the public URL, and `AwsConfig` picks the bucket name.

Shared modules: `Wrappers` (Option, Result), `JsText` (the JavaScript string
semantics used: UTF-16 `length`, `trim()`, the `\w` class, truthiness,
decimal rendering of a timestamp), `Web` (a `File`, the outcome of a
`fetch`, a decoded JSON body) and `AppShell` (the two screens and the
save-failure texts both clients share).

The browser and network outcomes are parameters of the operations. These
are: whether `FileReader`, image decoding, the canvas context and `toBlob`
succeed, the blob, the object URL, `Date.now()`, the reply to each `fetch`,
the reply of the key-value store, and the outcome of the S3 `send`.

What the code does not do:

- A save is prepended with no check by `id` (`GalleryApp.PrependAddsOneWithId`).
- The upload route never broadcasts. `SocketService.emit` has no caller in
  the files modelled here.
- No heart-masked raster is produced. The heart is only a display clip.
- The server does not check the message length.

The downscale cap is 800 pixels (frontend/src/components/HeartUpload.tsx:30).

The call signatures between components do not line up, so each function is
modelled with its own parameters:

- `HeartUpload` calls `onImageUpload` with two arguments, but
  `MainPage.handleImageUpload` takes three. Wired as written,
  `fullImageFile` would hold `undefined`. Then neither the `handleSave`
  guard nor `!isSaveDisabled` can hold, so the form as wired never calls
  `onSave`.
- `MainPage` calls `onSave` with four arguments, but `App.handleSaveMemory`
  takes two.

## Model

| member | source | states |
|---|---|---|
| `HeartUpload.ResizeDimensions` | frontend/src/components/HeartUpload.tsx:30-45 | both output edges are at most 800. The ratio is kept (`width * h == height * w`). The image is never enlarged. An image that fits is kept exactly. Otherwise the longer edge becomes exactly 800, and a square takes the height branch |
| `HeartUpload.ScaledToFitUnique` | frontend/src/components/HeartUpload.tsx:35-45 | for positive dimensions, the fit properties allow exactly one output size |
| `HeartUpload.WordSuffixLength` | frontend/src/components/HeartUpload.tsx:57 | the length of the longest run of `\w` characters that ends the name; the character before that run is not a word character |
| `HeartUpload.JpegNameIsReplacement` | frontend/src/components/HeartUpload.tsx:57 | where `/\.\w+$/` matches at a dot, the name up to that dot is followed by `.jpg`. Where it matches nowhere (no dot, an empty or non-word last segment), the name is unchanged |
| `HeartUpload.JpegNameOfStemAndExtension` | frontend/src/components/HeartUpload.tsx:57 | `stem.ext`, with a non-empty word-character `ext`, becomes `stem.jpg` for any stem |
| `HeartUpload.JpegNameIdempotent` | frontend/src/components/HeartUpload.tsx:57 | rewriting a name twice gives the same as rewriting it once |
| `HeartUpload.JpegName` | frontend/src/components/HeartUpload.tsx:57 | `file.name.replace(/\.\w+$/, '.jpg')`: the name is unchanged, or it is the name up to a dot followed by `.jpg` |
| `HeartUpload.JpegFile` | frontend/src/components/HeartUpload.tsx:57-60 | the compressed file has the rewritten name, type `image/jpeg`, the blob as content and the clock as `lastModified` |
| `HeartUpload.CompressImage` | frontend/src/components/HeartUpload.tsx:14-77 | resolves exactly when the read, the decode, the canvas context and `toBlob` all succeed. Each failure rejects with its own message, checked in the code's order. On success it gives the JPEG file, the object URL, and a canvas size that fits the decoded image |
| `HeartUpload.IsImageType` | frontend/src/components/HeartUpload.tsx:80 | `file.type.startsWith('image/')`: the type's first six characters are `image/` |
| `HeartUpload.HandleFile` | frontend/src/components/HeartUpload.tsx:79-92 | no callback unless the file exists and its type starts with `image/`. After a successful compression the callback gets the compressed file. After any failure it gets the original file and its data URL, if the fall-back read completes |
| `JsText.Utf16Length` | frontend/src/components/MainPage.tsx:39 | JavaScript `length`: between `|s|` and `2|s|` UTF-16 units, and exactly `|s|` when every character lies in the Basic Multilingual Plane |
| `JsText.TrimStart` | frontend/src/components/MainPage.tsx:27 | removes exactly the leading white space: the result is a suffix, the removed part is all white space, and the result does not start with white space |
| `JsText.TrimEnd` | frontend/src/components/MainPage.tsx:27 | removes exactly the trailing white space, the mirror image of `TrimStart` |
| `JsText.Trim` | frontend/src/components/MainPage.tsx:27 | `s.trim()`: no longer than `s`, and when non-empty it neither starts nor ends with white space |
| `JsText.BlankIffAllWhitespace` | frontend/src/components/MainPage.tsx:27 | `s.trim()` is empty exactly when every character of `s` is white space, which is how `IsBlank` is defined |
| `JsText.NatToString` | frontend_raw/supabase/index.tsx:22 | the decimal text of a timestamp is non-empty, all digits, and has no leading zero |
| `JsText.DecimalRoundTrip` | frontend_raw/supabase/index.tsx:22 | reading the decimal text back gives the timestamp |
| `JsText.NatToStringInjective` | frontend_raw/supabase/index.tsx:22 | distinct timestamps render as distinct texts |
| `SubmissionForm.SaveGuardIsTrimTest` | frontend/src/components/MainPage.tsx:27 | the guard `SaveGuard` that `handleSave` tests holds exactly when both files are present and `message.trim()` is non-empty |
| `SubmissionForm.SaveDisabled` | frontend/src/components/MainPage.tsx:51 | `isSaveDisabled` holds exactly when a file is missing, or `nickname.trim()` or `message.trim()` is empty |
| `SubmissionForm.EnabledIsGuardWithNickname` | frontend/src/components/MainPage.tsx:26-51 | the button is enabled exactly when the save guard holds and the nickname is not blank, so an enabled button always passes the guard |
| `SubmissionForm.BlankNicknamePassesGuard` | frontend/src/components/MainPage.tsx:51 | the converse fails: with a blank nickname the button is disabled, yet the guard holds |
| `SubmissionForm.MainPage.constructor` | frontend/src/components/MainPage.tsx:12-16 | starts with no files, no preview and empty texts, within the length bounds |
| `SubmissionForm.MainPage.HandleImageUpload` | frontend/src/components/MainPage.tsx:20-24 | sets the two files and the preview. Nickname and message are untouched and the bounds are kept |
| `SubmissionForm.MainPage.HandleSave` | frontend/src/components/MainPage.tsx:26-35 | when the guard holds, returns the `onSave` call with the current state and resets all five fields. Otherwise it returns no call and changes nothing |
| `SubmissionForm.MainPage.HandleNicknameChange` | frontend/src/components/MainPage.tsx:37-42 | accepts the value only if its UTF-16 length is at most 10; otherwise keeps the old nickname. Nothing else changes and the bounds are kept |
| `SubmissionForm.MainPage.HandleMessageChange` | frontend/src/components/MainPage.tsx:44-49 | accepts the value only if its UTF-16 length is at most 30; otherwise keeps the old message. Nothing else changes and the bounds are kept |
| `SubmissionForm.MessageBoundary` | frontend/src/components/MainPage.tsx:18 | a message of exactly 30 characters fits the bound and one of 31 exceeds it |
| `AppShell.FetchedList` | frontend/src/App.tsx:29-40 | the server's list when the reply is ok and decodes. `[]` after a network error, a non-ok status or an undecodable body. Used by both clients |
| `AppShell.SaveErrorText` | frontend/src/App.tsx:60 | the server's reason when it is a non-empty string, otherwise `Failed to save memory`; never empty |
| `AppShell.SaveAlert` | frontend/src/App.tsx:75 | the alert is `Failed to save memory: `, then the reason verbatim, then `. Please try again.` |
| `GalleryApp.SaveOutcome` | frontend/src/App.tsx:46-66 | succeeds only for an ok reply that decodes, and then yields its `data`. A non-ok reply yields the `message` text or the default. Network and decode errors yield their own messages |
| `GalleryApp.App.constructor` | frontend/src/App.tsx:13-15 | starts on the main screen, with an empty list, loading |
| `GalleryApp.App.BeginFetch` | frontend/src/App.tsx:24-27 | raises the loading flag; nothing else changes |
| `GalleryApp.App.CompleteFetch` | frontend/src/App.tsx:29-43 | replaces the list with `FetchedList(reply)`, clears the loading flag, and leaves the screen as it was |
| `GalleryApp.App.HandleSaveMemory` | frontend/src/App.tsx:46-77 | posts `{file, message}`. On success `result.data` is prepended to the unchanged old list and the gallery opens. On failure the list and screen are kept and the alert text is returned. The loading flag is never touched |
| `GalleryApp.PrependAddsOneWithId` | frontend/src/App.tsx:67-71 | prepending a record lists its id once more than before, even when that id is already listed (no deduplication) |
| `DraftServer.MemoryId` | frontend_raw/supabase/index.tsx:22 | the id is `memory:` followed by the decimal timestamp |
| `DraftServer.MemoryIdInjective` | frontend_raw/supabase/index.tsx:22 | records made at different milliseconds get different ids |
| `DraftServer.HasRequiredFields` | frontend_raw/supabase/index.tsx:14-16 | the 400 test fails: neither `imageData` nor `message` is absent or the empty string |
| `DraftServer.NewMemory` | frontend_raw/supabase/index.tsx:22-28 | the id comes from the first clock read and `createdAt` from the second. `imageUrl` is the image data verbatim and `message` is verbatim |
| `DraftServer.InternalError` | frontend_raw/supabase/index.tsx:34-37 | status 500 with the error text made of the handler's prefix (`Failed to create memory: ` or `Failed to fetch memories: `) and then the exception's message |
| `DraftServer.KeysWithPrefix` | frontend_raw/supabase/index.tsx:44 | exactly the stored keys that start with the prefix |
| `DraftServer.ValuesAtRemove` | frontend_raw/supabase/index.tsx:44 | the records under a key set are one key's record plus the records under the other keys, whichever key is taken first |
| `DraftServer.StoredMemoryIsFetched` | frontend_raw/supabase/index.tsx:44 | every record stored under a `memory:` key is among the records `GET` reads |
| `DraftServer.PostedMemoryIsFetched` | frontend_raw/supabase/index.tsx:22-47 | after a successful POST, the record it answered with is among the records the next GET returns |
| `DraftServer.KvStore.constructor` | frontend_raw/supabase/index.tsx:4 | the store starts with the given entries |
| `DraftServer.KvStore.Set` | frontend_raw/supabase/index.tsx:30 | `kv.set` maps the key to the value and leaves every other entry as it was |
| `DraftServer.KvStore.GetByPrefix` | frontend_raw/supabase/index.tsx:44 | returns the records under the prefixed keys, each as often as it is stored, in an unspecified order |
| `DraftServer.InsertNewestFirst` | frontend_raw/supabase/index.tsx:47 | one insertion step: the first `i + 1` records become newest first, later ones stay in place, and the array is a permutation of what it was |
| `DraftServer.SortNewestFirst` | frontend_raw/supabase/index.tsx:47 | the array is sorted in place by `createdAt`, non-increasing, and is a permutation of what it was |
| `DraftServer.PostMemory` | frontend_raw/supabase/index.tsx:12-38 | an undecodable body or a store failure gives 500 with the store unchanged. A falsy `imageData` or `message` gives 400 `Image and message are required` with the store unchanged. Otherwise the record is stored under its own id and the 200 reply is that record |
| `DraftServer.GetMemories` | frontend_raw/supabase/index.tsx:41-55 | a store failure gives 500. Otherwise the reply is 200 with a newest-first permutation of every `memory:` record |
| `DraftApp.SaveRequest` | frontend_raw/App.tsx:59 | the JSON body carries the image data and the message verbatim |
| `DraftApp.SaveOutcome` | frontend_raw/App.tsx:51-74 | succeeds only for an ok reply that decodes, and then yields the body itself. A non-ok reply yields `errorData.error` or the default. Other errors yield their own messages |
| `DraftApp.ClientView` | frontend_raw/App.tsx:62-68 | a 2xx reply with a record decodes to that record; a non-2xx reply with an error decodes to that error |
| `DraftApp.App.constructor` | frontend_raw/App.tsx:14-16 | starts on the main screen, with an empty list, loading |
| `DraftApp.App.BeginFetch` | frontend_raw/App.tsx:25-27 | raises the loading flag; nothing else changes |
| `DraftApp.App.CompleteFetch` | frontend_raw/App.tsx:34-48 | replaces the list with `FetchedList(reply)` and clears the loading flag, on either outcome |
| `DraftApp.App.HandleSaveMemory` | frontend_raw/App.tsx:51-75 | posts `{imageData, message}`. On success the reply body is prepended and the gallery opens. On failure the list and screen are kept and the alert text is returned |
| `DraftApp.SaveAgainstServer` | frontend_raw/App.tsx:51-70 | against the draft server, a save of non-empty data stores exactly one new record. The client puts that same record in front of its list and opens the gallery |
| `DraftApp.EmptyMessageIsRefused` | frontend_raw/supabase/index.tsx:16-19 | an empty message fails validation, and the client's failure text is the server's reason |
| `Socket.SocketService.constructor` | backend/src/socket/socket.service.ts:6 | a fresh service holds no server and has broadcast nothing |
| `Socket.SocketService.SetServer` | backend/src/socket/socket.service.ts:8-11 | holds the given server, replacing any earlier one; no broadcast |
| `Socket.SocketService.GetServer` | backend/src/socket/socket.service.ts:13-15 | returns the server held, or none |
| `Socket.SocketService.Emit` | backend/src/socket/socket.service.ts:17-24 | with a server and a payload that is not `null` or `undefined`, exactly one broadcast of `(event, data)` through it. With a server and a `null` or `undefined` payload, the call fails at `data.id` and nothing is broadcast. Without a server, nothing is broadcast and the call does not fail. The held server never changes |
| `Socket.EmitBeforeAndAfterSetServer` | backend/src/socket/socket.service.ts:6-24 | an emit before any `setServer` is lost without failing, and a later emit of a value goes through the last server set |
| `AwsConfig.Lookup` | backend/src/upload/upload.s3.ts:18 | `process.env[name]`: the variable's value when it is set, otherwise unset |
| `AwsConfig.BucketName` | backend/src/upload/upload.s3.ts:18 | `AWS_S3_BUCKET` when it is a non-empty string, otherwise whatever `AWS_BUCKET_NAME` is, possibly unset |
| `AwsConfig.TemplateText` | backend/src/s3/s3.service.ts:26 | a value interpolated into a template literal is its text, or `undefined` when it is unset |
| `UploadStorage.ObjectKey` | backend/src/upload/upload.s3.ts:20 | the key is `uploads/`, the UUID, `-`, then the original name. It starts with `uploads/` and ends with the original name |
| `UploadStorage.ObjectKeyInjective` | backend/src/upload/upload.s3.ts:20 | for one original name, distinct UUIDs give distinct keys |
| `UploadStorage.KeyOption` | backend/src/upload/upload.s3.ts:19-21 | the key callback always reports a null error, together with the object key |
| `S3Service.PublicUrl` | backend/src/s3/s3.service.ts:26 | the URL starts with `https://` and ends with `.amazonaws.com/` followed by the key |
| `S3Service.PublicUrlInjective` | backend/src/s3/s3.service.ts:26 | for one bucket and region, distinct keys give distinct URLs |
| `S3Service.UploadFile` | backend/src/s3/s3.service.ts:14-27 | sends one put with the selected bucket and the key, body and type unchanged. A URL is produced exactly when `send` succeeds, and it names the same bucket as the put |

## Left out

- Rendering, layout, drag-and-drop and the JSX of every component: presentation only.
- The per-card toggle timer and floating animation: cosmetic timers and floating point.
- `FileReader`, image decoding, canvas drawing, JPEG encoding and `URL.createObjectURL`: browser APIs, so their outcomes are parameters. The canvas's truncation of fractional `width`/`height` to integers (frontend/src/components/HeartUpload.tsx:47-48) is not modelled. The resize is stated over exact rationals.
- `fetch`, the network, `alert` and `console`: replies are parameters, and the alert text is a returned value.
- The argument the final client's `fetchMemories` builds from `response.text()` only reaches `console`, so it is not modelled.
- A 2xx reply from the draft server whose body is not a record: the draft client would prepend that JSON, and `DraftApp.ClientView` treats it as undecodable. `DraftServer.PostMemory` never sends one.
- A success reply without a `data` field (frontend/src/App.tsx:65), for which the code would prepend `undefined`: the model's success body always carries a record.
- JSON fields of an unexpected type (a number where a string belongs, or an array `message` in an error body): fields are modelled as an absent value or a string.
- `kv_store.tsx` is not part of this model. The store is a map, a failing store call changes nothing, and `getByPrefix` returns the prefixed records in an unspecified order.
- `DraftServer.SortNewestFirst`: the stability of `Array.prototype.sort` is not stated. Ties keep an order that the unspecified `getByPrefix` order already leaves open.
- `upload.controller.ts`, `memories.service.ts` and `memories.controller.ts`: thin wrappers whose behaviour lives in multer-s3 and Prisma, which are not part of this model.
- `prisma.service.ts`, the `*.module.ts` files, the `global['io']` factory and `main.ts`: dependency injection, lifecycle and CORS/port setup.
- `randomUUID`, the AWS credentials and the region setup of the S3 client: the UUID and the environment are parameters.
- Deduplication by `id` and socket fan-out to clients: the code does not implement them.
