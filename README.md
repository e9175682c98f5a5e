# Christmas letters: record reconciler, blob maintenance and the retexture pipeline

This project models the stateful core of the christmas-letter application.

- **The letter record reconciler** (`POST /api/letters`). A letter lives as one JSON
  object at `letters/{ornamentId}.json` in the blob store. A POST starts from a default
  record and overlays the stored letter on it, when the route's own per-letter GET
  returns that letter. When the fetch fails, the merge starts from the defaults alone and
  the write replaces the stored letter. It stores any uploaded media (image, 3D
  asset, podcast, background music) under `{folder}/{id}_{timestamp}_{name}` keys. A
  text field takes the incoming value only when that value is non-empty. A media field
  takes a fresh upload's URL; the image, failing that, takes the form's `imageUrl`.
  The `id` is set from the form's `ornamentId`; everything else comes from the starting
  record, `updatedAt` is refreshed, and the record is written back. `GET /api/letters` lists and reads every letter.
- **`cleanup-blobs.js`**. It loads `.env.local` into `process.env`, finds the storage
  token, and splits the whole listing into blobs to keep and blobs to delete. A letter
  record is kept when its id is one of the kept ids. Any other blob is kept when its path
  contains a kept id. The rest is deleted in one call.
- **`fix-asset3d.js`**. It loads `.env.local` (stripping quotes), checks one Meshy
  refinement task, downloads its GLB and stores it, then rewrites one letter's
  `asset3dUrl`. Each guard that fails ends the run.
- **`scripts/text_to_3D_retexture.py`**. It composes the prompt, creates a text-to-3D
  task and polls it, retextures the resulting GLB with the same prompt, polls that task,
  and downloads the result under a numbered file name.

The modules follow those parts:

- `Common` holds the JavaScript string notions: `trim` whitespace, line terminators,
  `split`, `includes`, and decimal rendering.
- `ProcessEnv` models `process.env` as a class whose map the loaders update line by line.
- `Letters`, `Cleanup`, `FixAsset3d` and `Retexture` model the four parts above.

State the source changes in place is modelled imperatively:

- `process.env` is `ProcessEnv.Environment`.
- The blob store is `Letters.BlobStore`, whose `Put` it updates.
- The classification loop of the cleanup script is `Cleanup.Partition`.
- The polling loop is `Retexture.PollMeshy`.

Each of these is proved against a reference function (`ApplyLines`, `WithUploads` and
`SavedRecord`, `KeptPaths` and `DeletedUrls`, `PollSpec`), and the properties are proved
about that function.

The POST handler does not start generation tasks or record task ids: it only merges,
uploads and persists. Polling Meshy tasks and downloading their results happens in the
offline Python script, in the manual fix-up script, and in the task-status route
`app/api/meshy/[taskId]/route.ts`. That route is not modelled.

## Model

| member | source | states |
|---|---|---|
| Common.Trim | cleanup-blobs.js:23-24 | `trim()`: the result is no longer than the input, and neither end of it is whitespace (the JavaScript WhiteSpace and LineTerminator set) |
| Common.TrimIsSlice | cleanup-blobs.js:23-24 | the trimmed string is a contiguous slice of the input, and everything cut from either end is whitespace |
| Common.TrimIdempotent | fix-asset3d.js:12-13 | trimming twice is trimming once |
| Common.Split | cleanup-blobs.js:18 | `split('\n')`: at least one part, no part contains the separator, and joining the parts with the separator gives the input back |
| Common.Contains | cleanup-blobs.js:75 | `includes`: true exactly when the substring occurs at some position |
| Common.NatToString | app/api/letters/route.ts:72 | decimal rendering of `Date.now()` in keys: digits only, no leading zero, and it reads back as the number |
| ProcessEnv.LoadLines | cleanup-blobs.js:20-27 | the loader loop leaves `process.env` equal to the old variables with every parsed line applied in order |
| ProcessEnv.ApplyLinesAppend | fix-asset3d.js:9-16 | loading lines `a` and then `b` equals loading `a + b` |
| ProcessEnv.IgnoredLine | cleanup-blobs.js:21-22 | a line that does not match the pattern changes nothing, wherever it stands |
| ProcessEnv.UntouchedKey | cleanup-blobs.js:25 | a key no loaded line sets keeps its presence and its value |
| ProcessEnv.LastLineWins | cleanup-blobs.js:25 | the last line that sets a key decides its value |
| ProcessEnv.FirstTruthy | cleanup-blobs.js:43-45 | `a \|\| b \|\| c`: none exactly when every variable is unset or empty; otherwise the first truthy one, with every earlier one falsy |
| Cleanup.ParseEnvLine | cleanup-blobs.js:21-24 | a line yields a pair exactly when `/^([^=:#]+)=(.*)$/` matches it, and the pair is the trimmed key part and the trimmed value part of that match |
| Cleanup.EnvMatchAtFirstEquals | cleanup-blobs.js:21 | the pattern can match only at the first `=`, and it does so exactly when the key part is non-empty and free of `:`/`#` and the value has no line terminator |
| Cleanup.LoadEnv | cleanup-blobs.js:11-28 | a missing file throws before anything is set; otherwise the environment becomes the old one with every line of the file applied |
| Cleanup.LetterIdFrom | cleanup-blobs.js:60-63 | `match(/letters\/(.+)\.json$/)`: none when no position matches; otherwise the capture of the leftmost matching position |
| Cleanup.Classify | cleanup-blobs.js:60-84 | the per-blob decision equals the retention test: a letter record by its exact id, any other blob by the kept ids its path contains |
| Cleanup.Partition | cleanup-blobs.js:55-85 | the loop yields exactly the kept path names and the deleted URLs in listing order, and together they account for every blob |
| Cleanup.PartitionSizes | cleanup-blobs.js:55-85 | every listed blob lands in exactly one of the two lists |
| Cleanup.PartitionPreservesOrder | cleanup-blobs.js:58-85 | classifying a concatenated listing concatenates the results: both lists follow listing order |
| Cleanup.PartitionMembership | cleanup-blobs.js:62-84 | a blob that passes the test has its path in the keep list; any other blob has its URL in the delete list |
| Cleanup.LetterRecordRetention | cleanup-blobs.js:60-71 | the record POST writes for an id without line terminators is kept exactly when that id is a kept id |
| Cleanup.MediaKeySlash | app/api/letters/route.ts:72 | in a media key whose parts hold no `/`, the only `/` is the one after the folder |
| Cleanup.MediaKeyIsNoLetter | cleanup-blobs.js:60-62 | a media key POST writes for an id and a file name without `/` never matches the letter-record pattern |
| Cleanup.MediaOfKeptLetterIsKept | cleanup-blobs.js:72-79 | every media file POST stores for a kept letter is kept too, when the id and the file name hold no `/` |
| Cleanup.UploadNamedLikeLetter | cleanup-blobs.js:60-62 | an upload whose file name is itself `letters/{name}.json` gives a media key that matches the letter-record pattern, so it is judged by the captured name, not by the letter's id |
| Cleanup.BrokenIdFallsBack | cleanup-blobs.js:60-79 | the record key of an id holding a line terminator (and no `/`) matches no letter pattern, and is kept exactly when it contains some kept id |
| Cleanup.RunScript | cleanup-blobs.js:30-117 | the script as run: a missing `.env.local` ends it before anything is listed; otherwise the environment is loaded and the cleanup runs with `KEEP_IDS`, with the outcome CleanupBlobs states |
| Cleanup.CleanupBlobs | cleanup-blobs.js:41-105 | no token means an error and no listing; otherwise an empty delete list means an early return, and a non-empty one is deleted in one call; kept and deleted together account for every blob |
| FixAsset3d.StripQuotes | fix-asset3d.js:13 | removing quotes shortens the value by at most two characters |
| FixAsset3d.StripQuotesCases | fix-asset3d.js:13 | `/^["']\|["']$/g`: one leading and one trailing quote are removed independently, a lone quote becomes empty, and an unquoted value is unchanged |
| FixAsset3d.ParseEnvLine | fix-asset3d.js:10-14 | a line yields a pair exactly when `/^([^=]+)=(.*)$/` matches it, and the pair is the trimmed key and the trimmed, unquoted value |
| FixAsset3d.MatchAtIndexOf | fix-asset3d.js:10 | the pattern can match only at the first `=`, and it does so exactly when the key is non-empty and the value has no line terminator |
| FixAsset3d.LoadEnv | fix-asset3d.js:6-17 | a missing file leaves the environment unchanged; otherwise the environment becomes the old one with every line applied |
| FixAsset3d.UpdatedLetter | fix-asset3d.js:115-119 | the spread update sets `asset3dUrl` and `updatedAt`, keeps every other field, and drops none |
| FixAsset3d.FixAsset3dUrl | fix-asset3d.js:22-127 | without a key or token nothing is called; the GLB is stored exactly when every guard up to the download passes; the letter is written exactly when, in addition, the listing found it; the letter write is then the last call, at the letter's key, and holds the first listed record with the new asset URL |
| FixAsset3d.FixAsset3dTrace | fix-asset3d.js:24-107 | the status check of the refinement task is the first request, made exactly when key and token are set. Each guard before the download maps to its own outcome and stops after that one request; a failed download stops after the GLB fetch. Past the download, the reply's GLB is fetched, stored under `3d-assets/{REFINE_TASK_ID}_{timestamp}.glb`, and the letter key is listed; the run then ends after those four requests when no letter is listed, and after the fifth, the letter write, when one is |
| FixAsset3d.FixSurvivesLaterPost | app/api/letters/route.ts:86-102 | after the fix-up has written a letter, a later POST without a 3D upload whose fetch of the stored letter returns the fixed letter keeps the fixed `asset3dUrl` |
| Letters.Start | app/api/letters/route.ts:39-67 | the merge's starting record has every default field |
| Letters.StartOverlay | app/api/letters/route.ts:39-67 | with nothing fetched the start is the defaults; otherwise the stored fields win over the defaults, and the defaults fill only the missing fields |
| Letters.LetterData | app/api/letters/route.ts:139-151 | the spread record sets the ten managed fields to the given values and carries every other field of `existingData` over |
| Letters.SavedRecord | app/api/letters/route.ts:39-151 | the written record has exactly the fields of the start record, its own id, and a fresh `updatedAt` |
| Letters.SavedRecordCreatedAt | app/api/letters/route.ts:49 | `createdAt` comes through from the fetched letter when that letter has one; it is the current time when the fetch failed or the fetched letter has no `createdAt` |
| Letters.SavedRecordCarriesUnmanaged | app/api/letters/route.ts:139-140 | every field the POST does not manage comes through unchanged |
| Letters.SavedRecordMedia | app/api/letters/route.ts:69-132 | an uploaded image wins, then the form's `imageUrl`, then the previous value; each other media field takes a fresh upload's URL or keeps the previous value |
| Letters.SavedRecordText | app/api/letters/route.ts:134-137 | each text field takes a non-empty incoming value and otherwise keeps the stored one |
| Letters.NoMediaReset | app/api/letters/route.ts:69-132 | a media URL that is set in the merge's starting record (the fetched letter over the defaults) is never reset to null by a POST |
| Letters.UnfetchedLetterIsReplaced | app/api/letters/route.ts:53-67 | when the stored letter could not be fetched, the written record has only the default fields and a fresh `createdAt`, and every media field the form does not set is null, whatever the store held |
| Letters.NoTextCleared | app/api/letters/route.ts:134-137 | a non-empty stored text field stays non-empty whatever the form sends |
| Letters.BlobStore.Put | app/api/letters/route.ts:155-159 | stores the blob under its key, overwriting, and returns the URL base followed by the key |
| Letters.BlobStore.List | app/api/letters/route.ts:173 | returns every stored key under the prefix, each exactly once |
| Letters.StoreUpload | app/api/letters/route.ts:86-102 | a present file is stored under its media key and its URL becomes the field; otherwise the store and the field are unchanged |
| Letters.StoreMedia | app/api/letters/route.ts:69-132 | the four uploads leave the store with every present file added, and yield the four media field values |
| Letters.Post | app/api/letters/route.ts:5-169 | a missing or empty id is a 400 and nothing is stored; otherwise the media are stored, the merged record is written at the letter key, and the same record is returned |
| Letters.GetLetters | app/api/letters/route.ts:171-189 | the listing succeeds exactly when every blob under `letters/` reads back as JSON; it then returns, for some enumeration listing each letter key once, the record stored at each key in that order |
| Letters.ListingFacts | app/api/letters/route.ts:173-180 | such a listing has as many records as there are letter keys, and holds exactly the stored letters |
| Letters.StartOfComplete | app/api/letters/route.ts:62 | a stored letter that already has every default field is its own starting record |
| Letters.LetterDataUnchanged | app/api/letters/route.ts:139-151 | writing every managed field back with its own value only refreshes `updatedAt` |
| Letters.ResubmitIdOnly | app/api/letters/route.ts:5-169 | a POST that sends only the id, whose fetch returns a letter holding every default field and its own id, writes that letter back with only `updatedAt` changed |
| Letters.SavedIsResubmittable | app/api/letters/route.ts:5-169 | when the next POST's fetch returns the saved letter, re-submitting only its id writes it back with only `updatedAt` changed |
| Retexture.PollUrl | scripts/text_to_3D_retexture.py:90-93 | retexture tasks are polled on the v1 endpoint and every other task type on the v2 endpoint |
| Retexture.PollUrlVersion | scripts/text_to_3D_retexture.py:89-93 | the URL alone tells the API version: v1 exactly for retexture |
| Retexture.PollSpec | scripts/text_to_3D_retexture.py:98-117 | polling is decided by the first reply whose status is `SUCCEEDED`/`COMPLETED` (result) or `FAILED`/`ERROR` (raise); every earlier reply is undecided |
| Retexture.PollIgnoresLaterReplies | scripts/text_to_3D_retexture.py:109-116 | once a decisive reply has arrived, later replies are never looked at |
| Retexture.PollMeshy | scripts/text_to_3D_retexture.py:87-118 | the loop polls the endpoint of its task type and ends exactly as the reference outcome says |
| Retexture.SafeName | scripts/text_to_3D_retexture.py:132 | `lower().replace(" ", "_")`: same length, no space, no upper-case ASCII letter, each character mapped on its own |
| Retexture.SafeNameIdempotent | scripts/text_to_3D_retexture.py:132 | making a name safe twice is making it safe once |
| Retexture.Existing | scripts/text_to_3D_retexture.py:133-136 | an entry is counted exactly when it is listed, starts with the safe name and ends with `.glb` |
| Retexture.ExistingAppend | scripts/text_to_3D_retexture.py:133-137 | one more listed entry adds one to the count exactly when it matches |
| Retexture.PathJoin | scripts/text_to_3D_retexture.py:139 | `os.path.join` on POSIX: an absolute name replaces the directory; otherwise one `/` separates them unless the directory is empty or already ends with one |
| Retexture.PathJoinRelative | scripts/text_to_3D_retexture.py:139 | joining a relative name keeps the directory as a prefix and the name as a suffix, with at most one `/` inserted between them |
| Retexture.JoinOutputName | scripts/text_to_3D_retexture.py:139 | a numbered file name is joined as an absolute path exactly when the safe name starts with `/`; otherwise it lands under the directory |
| Retexture.SavePathInOutputDir | scripts/text_to_3D_retexture.py:132-139 | the downloaded file lands in the output directory under its numbered name, unless the object name starts with `/`, in which case the directory is dropped |
| Retexture.DownloadGlb | scripts/text_to_3D_retexture.py:126-148 | the file is saved exactly when the result names a GLB and the fetch succeeds, at the numbered path, fetched from that GLB URL; a failed fetch reports that URL, and "no GLB URL" arises exactly when the result names none |
| Retexture.SavedFileIsCounted | scripts/text_to_3D_retexture.py:133-139 | a saved file counts as an existing entry for the next download of the same object |
| Retexture.OutputNameMatches | scripts/text_to_3D_retexture.py:135-139 | every output name starts with the safe name and ends with `.glb` |
| Retexture.OutputNameInjective | scripts/text_to_3D_retexture.py:137-139 | different indexes give different file names |
| Retexture.CountReusesName | scripts/text_to_3D_retexture.py:137-139 | because the index counts files instead of taking the largest, a directory holding only `cat_2_retexture.glb` makes the next download of "Cat" choose that same file again |
| Retexture.ComposePrompt | scripts/text_to_3D_retexture.py:182-183 | the prompt is the object, then `. `, then the low-poly description |
| Retexture.ObjectFromPrompt | scripts/text_to_3D_retexture.py:182-183 | an object name without a full stop is everything before the prompt's first `.` |
| Retexture.DownloadStage | scripts/text_to_3D_retexture.py:203-204 | the last stage fetches exactly the result's `model_urls.glb` when it has one and requests nothing otherwise, and finishes exactly when `download_glb` saves the file |
| Retexture.AfterTextTo3d | scripts/text_to_3D_retexture.py:196-204 | the retexture part starts with the retexture request on the given GLB with the same prompt, keeps stage order, polls only the retexture endpoint, and finishes exactly when that poll succeeds and the download saves |
| Retexture.RunPipeline | scripts/text_to_3D_retexture.py:177-207 | the first request creates the text-to-3D task from the composed prompt, and the requests follow the stages: create, poll, retexture, poll, download |
| Retexture.RetextureTrace | scripts/text_to_3D_retexture.py:196-204 | the retexture part's requests are the retexture creation, one status request to the retexture endpoint per reply consumed, and, only after a successful poll whose result names a GLB, the fetch of that GLB |
| Retexture.PipelineTrace | scripts/text_to_3D_retexture.py:188-204 | the run's requests are the text-to-3D creation, one status request to that task's endpoint per reply consumed, and, only after a successful poll whose result names a GLB, the retexture part on that GLB |
| Retexture.TextTo3dCreatedOnce | scripts/text_to_3D_retexture.py:188-204 | the text-to-3D task is created by the first request only |
| Retexture.RetextureFollowsTextTo3d | scripts/text_to_3D_retexture.py:192-197 | a retexture is requested only after the text-to-3D poll succeeded, on that result's GLB and with the same prompt |
| Retexture.PollsHitOwnEndpoint | scripts/text_to_3D_retexture.py:192-201 | every status request goes to the endpoint of its own task |
| Retexture.PipelineFailures | scripts/text_to_3D_retexture.py:188-204 | a run that does not finish ends at the first poll that fails (`PollFailed`) or stays undecided (`StillPolling`) for that task, at a text-to-3D result without a GLB (`NoModelUrl`), or with `DownloadFailed` after both polls succeed |
| Retexture.PipelineFinishes | scripts/text_to_3D_retexture.py:177-207 | the run finishes exactly when both polls succeed, the first result names a GLB and the download saves, and the path is then the numbered `_retexture` file under `./outputs` |

## Left out

- I/O is not modelled as such. The environment file, the directory listing, HTTP
  replies, the store's listing and `Date.now()`/`new Date()` are parameters. Console
  logging is dropped.
- Letters.Post: the fetch of the stored letter over the route's own
  `GET /api/letters/{id}` is an `Option<Record>` parameter. `None` stands for any failure:
  a network error, a non-ok reply, or `success: false`.
- Letters.Post: a failed fetch of the stored letter is not retried. The record written
  then replaces the stored one, which loses its fields and media URLs (stated in
  UnfetchedLetterIsReplaced). NoMediaReset, NoTextCleared, ResubmitIdOnly,
  SavedIsResubmittable and FixSurvivesLaterPost hold relative to the fetched letter only.
- Letters.Post: the one ISO time `now` stands for both `new Date()` calls of the
  defaults and for the one at `updatedAt` (they may differ by milliseconds in the source).
- Letters.Post: the 500 reply when a `put` throws is not modelled. Uploads and the final
  write always succeed in the model.
- Letters.BlobStore.Put: the store's URL is `base + key`. Random suffixes, the
  `allowOverwrite` flag, content types and access modes are not modelled.
- Letters.GetLetters: pagination of `list` is not modelled. A blob that does not parse
  as JSON (here, any media blob under `letters/`) makes the whole listing fail, as
  `Promise.all` does. Network failures are not modelled.
- Letters.SavedRecord: its own contract states only the fields, the id and `updatedAt`.
  The facts about each field are stated in SavedRecordCreatedAt,
  SavedRecordCarriesUnmanaged, SavedRecordMedia and SavedRecordText.
- Common.Trim: its own contract states the length bound and the two ends. That the result
  is a slice with whitespace cut from both ends is stated in TrimIsSlice.
- FixAsset3d.StripQuotes: its own contract states only the length bound. The cases are
  stated in StripQuotesCases.
- FixAsset3d.FixAsset3dUrl: the outer `catch` (a throwing `put`, `list` or letter fetch)
  is not modelled. The letter read back from `blobs[0].url` is the first record of the
  `listed` parameter.
- Cleanup.LetterRecordRetention: holds only for ids without line terminators. The
  route accepts any id, and `letters/ornament_1\nz.json` is kept when `ornament_1` is kept,
  because `.` does not match a line break and the path falls to the containment test
  (BrokenIdFallsBack).
- Cleanup.MediaKeyIsNoLetter, Cleanup.MediaOfKeptLetterIsKept: hold only for ids and file
  names without `/`. The route accepts any file name, and an image of a kept letter named
  `x/letters/y.json` is read as the record of letter `y` and deleted unless `y` is kept
  (UploadNamedLikeLetter).
- Cleanup.CleanupBlobs: `list({ token })` is called once, so the cleanup sees only the
  first page of the listing; the `blobs` parameter is that page.
- Cleanup.CleanupBlobs: the five-second pause, a throwing `list` or `del`, and the
  exit code are not modelled. The `del` call is the `Deleted` outcome.
- Retexture.PollMeshy: the four-second sleep is not modelled. The replies are a finite
  sequence, so a task that never turns decisive within them ends as `Pending`, where the
  script would keep polling. An HTTP error status (`raise_for_status`) is not modelled.
- Retexture.RunPipeline: the OpenAI call that produces the object and the low-poly prompt
  (`generate_keyword_and_lowpoly_prompt`) and its JSON parsing are not modelled. Its
  result is the `info` parameter. Task creation is assumed to succeed and to return the
  given task ids.
- Retexture.RunPipeline: Python exceptions (a `KeyError` on a missing GLB, a failed poll)
  are collapsed into distinct outcomes instead of an uncaught traceback.
- Retexture.SafeName: `str.lower()` is modelled for ASCII letters only.
- Concurrency is not modelled: two POSTs for the same id racing their read-modify-write
  cycles can lose an update.
- The Meshy proxy and task-status routes, the per-letter GET route, the UI pages,
  `scripts/generate_glb.py` and the duplicate `text_to_3D_retexture.py` at the top level
  are not part of this model.
