# Zentro platform: job pipelines, helpers and document tables

Zentro turns a script into a short captioned video, generates images from prompts, and
uploads videos to YouTube at a scheduled time. This project models the logic the repository
writes itself:

- the four background pipelines in `inngest/functions.ts` (createVideo, generateImage,
  scheduleUpload, renderZentroVideo) and the step helpers in `inngest/helpers.ts`;
- the string and buffer helpers of `lib/helpers.ts`;
- the Convex mutations and queries of `convex/videos.ts`, `convex/images.ts`,
  `convex/schedules.ts` and `convex/users.ts`;
- the three cancel routes under `app/api/cancel`, which send a pipeline's cancel event and then
  delete the document.

## Modules

- **Tables** and **Schema.** Every Convex table is a sequence of `Doc(id, value)` in creation
  order. Each record type of `convex/schema.ts` is a datatype, and the status vocabularies are
  constants. `State` holds all five tables and the next id to hand out.
- **Store.** `Db` is the database as an object with one field per table. The mutations in
  **Videos**, **Images**, **Schedules** and **Users** are methods on it, each proved equal to a
  pure transition function on `State`. The queries are functions.
- **Steps.** The durable-step engine as the pipelines see it.
  - Every `step.run` appends an `Entry(name, occurrence, outcome)` to the run's ledger.
    Entries are keyed by name and occurrence, because helpers reuse names such as
    "update-video-status".
  - A run's effects are the record writes, the events it sent and the mails it handed over.
  - A piece of a pipeline is a `Flow`: the context after it, and whether it went on, threw or
    was cancelled.
  - Cancellation is the number of recorded steps after which the engine has seen the cancel
    event. From then on no step starts.
  - `Execution` is the run in progress, and each helper method is proved equal to its `Flow`
    function.
- **Collaborators.** Every hosted service is a field of `Providers` holding a fixed outcome
  (`Ok`/`Err`). Examples are the clock, Gemini, Deepgram, Nebius, ImageKit, Remotion Lambda,
  YouTube, the mail service and the event API.
- **InngestHelpers** and **Pipelines**:
  - each helper and each pipeline has a `Flow` (or `Run`) function;
  - each has a method over `Db` and `Execution` that is proved to match that function;
  - lemmas state what a run writes, in which order, and how it ends.
- **JsStrings** and **LibHelpers.** JavaScript's first-occurrence `String.prototype.replace`,
  including its `$` patterns. Also `trim`, the anchored fence stripping of `cleanJSONResponse`,
  and `getAudioBuffer`'s read loop over a `StreamReader` object.
- **Events** and **CancelRoutes.** The functions' trigger and cancel events with their match
  keys, and the cancel routes.

## Model

| member | source | states |
|---|---|---|
| Tables.Get | convex/videos.ts:66-75 | `ctx.db.get`: some value exactly when a document with that id is in the table, and then it is that document's value |
| Tables.Set | convex/videos.ts:59-62 | a patch keeps the length, every id and order, and replaces only the value under the patched id |
| Tables.Remove | convex/videos.ts:139 | `ctx.db.delete`: every remaining document was in the table and has another id; every document with another id remains |
| Tables.Filter | convex/schedules.ts:34 | `.filter(...).collect()`: exactly the documents the predicate keeps, all taken from the table |
| Tables.First | convex/users.ts:14-16 | `.filter(...).first()`: the first document in table order the predicate keeps, or none when it keeps none |
| Tables.Reverse | convex/images.ts:30 | `.order("desc")`: the table back to front |
| Tables.GetAfterSet | convex/videos.ts:59-62 | on a table with increasing ids, a lookup after a patch sees the new value under the patched id and the old value elsewhere |
| Tables.SetKeepsIncreasing | convex/videos.ts:59-62 | a patch keeps ids increasing and below the next id |
| Tables.GetAfterRemove | convex/videos.ts:139 | after a delete the id is gone and every other lookup is unchanged |
| Tables.RemoveKeepsIncreasing | convex/videos.ts:139 | a delete keeps ids increasing and below the next id |
| Tables.GetAfterAppend | convex/videos.ts:34-46 | an insert under a fresh id above every existing one leaves every older lookup unchanged |
| Tables.AppendKeepsIncreasing | convex/videos.ts:34-46 | an insert under the next id keeps ids increasing and raises the bound by one |
| Tables.InsertDesc | convex/videos.ts:116-120 | one step of the stable sort: the result is a permutation of the input plus the new document, and descending order is kept |
| Tables.SortDesc | convex/videos.ts:116-120 | `.sort((a, b) => key(b) - key(a))`: a permutation of the input, ordered by key, largest first |
| Tables.SetReplaces | convex/videos.ts:59-62 | a patch on a stored id replaces that document and keeps ids, order and every other document |
| Tables.QueryDesc | convex/images.ts:27-31 | `.filter(...).order("desc").collect()`: exactly the matching documents, and on an increasing table their ids strictly decrease |
| Tables.ReverseOfFilter | convex/images.ts:27-31 | reversing a filtered table gives the matching documents with strictly decreasing ids |
| Tables.ReverseOfIncreasing | convex/images.ts:30 | the reverse of a table with increasing ids has strictly decreasing ids |
| Tables.FilterKeepsIncreasing | convex/images.ts:29 | filtering keeps ids increasing |
| Videos.SetIsPatch | convex/videos.ts:59-62 | on a well-formed store, setting a stored video is a patch of that document only and keeps the store well formed |
| Videos.SetIsPatchIfWellFormed | convex/videos.ts:91-98 | the same as SetIsPatch, stated for any store where the video is present |
| Videos.PatchStatus | convex/videos.ts:50-64 | `updateVideoStatus` succeeds exactly when the video exists; it then changes only `status` and `updatedAt` of that video |
| Videos.PatchData | convex/videos.ts:77-100 | `updateVideo` succeeds exactly when the video exists; it then changes only audioUrl, captions, images, title, status and updatedAt |
| Videos.PatchVideoUrl | convex/videos.ts:143-155 | `updateVideoUrl` succeeds exactly when the video exists; it then changes only `videoUrl` |
| Videos.PatchRendering | convex/videos.ts:157-169 | `updateVideoRenderStatus` succeeds exactly when the video exists; it then changes only `rendering` |
| Videos.GetVideos | convex/videos.ts:102-129 | "Unauthorized" exactly when there is no identity; otherwise the listing holds exactly the summaries of the caller's videos, newest first |
| Videos.ListingOfSorted | convex/videos.ts:110-127 | the caller's videos, sorted by updatedAt descending and projected, form such a listing |
| Videos.SummariesNewestFirst | convex/videos.ts:116-120 | the summaries of videos sorted by updatedAt have non-increasing updatedAt |
| Videos.CreateVideo | convex/videos.ts:4-48 | inserts exactly the given fields under the next id (the generated fields absent) and returns that id; nothing else changes |
| Videos.UpdateVideoStatus | convex/videos.ts:50-64 | the store after the call is PatchStatus's result, or unchanged with an error when the video is missing |
| Videos.UpdateVideo | convex/videos.ts:77-100 | the store after the call is PatchData's result, or unchanged with an error |
| Videos.UpdateVideoUrl | convex/videos.ts:143-155 | the store after the call is PatchVideoUrl's result, or unchanged with an error |
| Videos.UpdateVideoRenderStatus | convex/videos.ts:157-169 | the store after the call is PatchRendering's result, or unchanged with an error |
| Videos.DeleteVideo | convex/videos.ts:132-141 | succeeds exactly when the video exists; afterwards it is gone, and every other video and table is unchanged |
| Images.PatchImageGeneration | convex/images.ts:84-97 | succeeds exactly when the job exists; it then changes only `status` and `image` of that job, and an absent image removes the field |
| Images.PatchKeepsWellFormed | convex/images.ts:91-94 | a patch of a stored job keeps the store well formed and replaces only that job |
| Images.GetImages | convex/images.ts:21-34 | "Unauthorized" exactly when there is no identity; otherwise exactly the caller's images, with strictly decreasing ids |
| Images.GetImageGenerations | convex/images.ts:69-82 | "Unauthorized" exactly when there is no identity; otherwise exactly the caller's jobs, with strictly decreasing ids |
| Images.CreateImage | convex/images.ts:4-19 | fails exactly without an identity, and then changes nothing; otherwise stores the url with clerkId taken from the caller under the next id |
| Images.CreateImageGeneration | convex/images.ts:36-57 | fails exactly without an identity; otherwise stores prompt, type, status and selectedImage, with clerkId taken from the identity and no image |
| Images.UpdateImageGeneration | convex/images.ts:84-97 | the store after the call is PatchImageGeneration's result, or unchanged with an error |
| Images.DeleteImageGeneration | convex/images.ts:101-109 | succeeds with `success: true` exactly when the job exists; afterwards it is gone and every other document is unchanged |
| Schedules.PatchScheduleStatus | convex/schedules.ts:51-62 | succeeds exactly when the schedule exists; it then changes only its `status` |
| Schedules.PatchKeepsWellFormed | convex/schedules.ts:57-60 | a patch of a stored schedule keeps the store well formed and replaces only that schedule |
| Schedules.StatusUpdatesKeepDatetime | convex/schedules.ts:4-73 | any sequence of status updates leaves every stored schedule present with its original datetime |
| Schedules.StatusUpdateKeepsDatetime | convex/schedules.ts:51-62 | one status update keeps every stored schedule and its datetime |
| Schedules.StatusUpdateReadBack | convex/schedules.ts:51-62 | a status update of a stored schedule reads back as that schedule with only the new status |
| Schedules.GetSchedules | convex/schedules.ts:28-38 | "Unauthorized" exactly when there is no identity; otherwise exactly the caller's schedules, in creation order |
| Schedules.CreateSchedule | convex/schedules.ts:4-25 | inserts the six given fields under the next id and returns it, with no caller check |
| Schedules.UpdateScheduleStatus | convex/schedules.ts:51-62 | the store after the call is PatchScheduleStatus's result, or unchanged with an error |
| Schedules.DeleteSchedule | convex/schedules.ts:40-48 | succeeds exactly when the schedule exists; afterwards it is gone and every other document is unchanged |
| Users.GetUser | convex/users.ts:33-40 | some user exactly when a row has that clerkId, and then it is a stored row with that clerkId |
| Users.GetOrCreate | convex/users.ts:6-30 | "Unauthorized" without an identity; an existing caller is returned with the store unchanged; otherwise exactly one user built from the identity is inserted under the next id |
| Users.GetOrCreateFindsCaller | convex/users.ts:13-28 | after a successful call the store is well formed and `getUser` finds the caller's returned or inserted row |
| Users.GetOrCreateTwice | convex/users.ts:13-28 | with at most one row for the caller, the second call changes nothing, returns the existing row, and leaves exactly one row |
| Users.GetOrCreateUser | convex/users.ts:6-30 | the method's result and new store are those of GetOrCreate, and the store is unchanged on error |
| Events.CancelMatchesSubject | inngest/functions.ts:34-39 | a function's cancel event for id `i` stops a run exactly when that run's trigger carries `i` under the match key |
| Events.CancelEventsDistinct | inngest/functions.ts:184-189 | a function's cancel event never stops a run of another of the four functions |
| Events.ScheduleUploadEvent | inngest/functions.ts:154-160 | the re-sent event triggers scheduleUpload, carries the same scheduleId under the match key and the same refresh token |
| CancelRoutes.CancelVideo | app/api/cancel/video/route.tsx:7-25 | a failed send throws before the delete and changes nothing; otherwise the createVideo cancel event is sent and the video is deleted |
| CancelRoutes.CancelImage | app/api/cancel/image/route.ts:6-24 | a failed send changes nothing; otherwise the generateImage cancel event is sent and the job is deleted |
| CancelRoutes.CancelSchedule | app/api/cancel/schedule/route.ts:5-22 | a failed send changes nothing; otherwise the scheduleUpload cancel event is sent and the schedule is deleted |
| CancelRoutes.ScheduleCancelStopsReruns | inngest/functions.ts:130-135 | the schedule's cancel event stops a run started by the schedule event, whichever sent it, exactly when the ids agree |
| CancelRoutes.VideoCancelMissesRender | inngest/functions.ts:184-189 | the video route's cancel event never stops a renderZentroVideo run |
| Steps.RecordKeepsKeyed | inngest/helpers.ts:50 | recording a step keeps every entry's occurrence index equal to the count of earlier entries of its name |
| Steps.KeysUnique | inngest/helpers.ts:159 | in a keyed ledger no two entries share (name, occurrence), even when they share a name |
| Steps.NamesRecord | inngest/helpers.ts:476 | recording a step appends exactly its name to the names |
| Steps.RunStep | inngest/helpers.ts:35-43 | `step.run`: nothing happens once cancelled; otherwise one entry is recorded, the body's writes stay even when it throws, and the run goes on exactly when the body succeeded |
| Steps.Found | inngest/functions.ts:51-55 | reading a field of a missing document throws; otherwise the value is passed on, and nothing changes |
| Steps.RunCall | inngest/helpers.ts:64-89 | a step that only calls a provider is `RunStep` with that outcome and no writes |
| InngestHelpers.Outside | inngest/helpers.ts:347 | a value computed outside any step changes nothing and throws exactly on an error |
| InngestHelpers.WriteAttempt | inngest/helpers.ts:159-165 | a step body calling one mutation succeeds exactly when the mutation does, and only then writes and records the effect |
| InngestHelpers.Lookup | inngest/helpers.ts:36-41 | `getVideo` by id: some document exactly when the id is stored, and it carries that id |
| InngestHelpers.GetVideoData | inngest/helpers.ts:35-43 | the method is the "get-video-data" step reading the video by id |
| InngestHelpers.VideoStatusAttempt | inngest/helpers.ts:45-57 | succeeds exactly when the video exists, then writes only its status and updatedAt; other tables are never touched |
| InngestHelpers.UpdateVideoStatus | inngest/helpers.ts:45-57 | the method is the "update-video-status" step with that attempt |
| InngestHelpers.AudioUrl | inngest/helpers.ts:64-88 | a speech error is returned; no audio stream throws "No audio stream received"; a stream read error is returned; a fully read stream gives exactly the upload's outcome for its buffer, and only then can it succeed |
| InngestHelpers.GenerateAudioUrl | inngest/helpers.ts:59-90 | the method is the "generate-audio-url" step with that outcome |
| InngestHelpers.GenerateCaptions | inngest/helpers.ts:92-110 | the method is the "generate-captions" step with the transcription outcome |
| InngestHelpers.ImagePromptFills | inngest/helpers.ts:118-121 | the image prompt replaces the first `{{STYLE}}` with the style, then the first `{{SCRIPT}}` with the script |
| InngestHelpers.ImagePrompts | inngest/helpers.ts:117-126 | a Gemini error or a null reply throws; a reply to the filled prompt gives exactly the parse of the cleaned reply, and only then can it succeed |
| InngestHelpers.Truthy | inngest/helpers.ts:143-145 | a url is returned exactly when it is present and non-empty, and then unchanged; anything else gives undefined |
| InngestHelpers.GenerateAll | inngest/helpers.ts:129-147 | succeeds exactly when every request does; then one entry per prompt, in prompt order, the url when it is truthy and undefined otherwise; on failure the first failing request's error |
| InngestHelpers.ImagesFromPrompts | inngest/helpers.ts:128-149 | a missing prompt list throws; otherwise it is GenerateAll over the prompts |
| InngestHelpers.GenerateImages | inngest/helpers.ts:112-151 | the method is the two image steps in order |
| InngestHelpers.ImageJobAttempt | inngest/helpers.ts:153-166 | succeeds exactly when the job exists and the image is not null; then writes that job's status and image, leaves every other job and table as it was, and keeps the store well formed |
| InngestHelpers.UpdateImage | inngest/helpers.ts:153-166 | the method is the "update-image-generation" step with that attempt |
| InngestHelpers.GetImageData | inngest/helpers.ts:168-175 | the method is the "get-image-generation" step, with no caller check |
| InngestHelpers.DesiredPropsFills | inngest/helpers.ts:181-184 | the props prompt replaces the first `{{PROMPT}}`, then the first `{{TYPE}}`, for the template layout where `{{TYPE}}` comes first |
| InngestHelpers.Field | inngest/helpers.ts:189-190 | a field of the parsed reply is present exactly when its key is |
| InngestHelpers.PropsIgnoreOtherFields | inngest/helpers.ts:188-191 | two replies that agree on those two keys give the same props |
| InngestHelpers.DesiredProps | inngest/helpers.ts:178-193 | a missing job, a Gemini error, a null reply or a parse error throws; a parsed reply to the filled prompt gives exactly its `prompt` and `responseExtension`, and only then can it succeed |
| InngestHelpers.GetDesiredImageProps | inngest/helpers.ts:177-195 | the method is the "get-desired-image-props" step with that outcome |
| InngestHelpers.MimeTypeAsWrittenUnknown | inngest/helpers.ts:221-223 | as written, an unknown extension yields the mime type "false", not the image/jpeg default |
| InngestHelpers.MimeType | inngest/helpers.ts:221-223 | the intended mime type: the looked-up type when there is one, image/jpeg otherwise, never empty |
| InngestHelpers.MimeTypeAgreesOnKnown | inngest/helpers.ts:221-223 | when the lookup succeeds, the code as written and the intended definition agree |
| InngestHelpers.ReferenceImage | inngest/helpers.ts:205-231 | a reference image is sent only when one is selected, with its fetched data and the mime type; it fails exactly when the fetch fails |
| InngestHelpers.FirstInlineFrom | inngest/helpers.ts:255-268 | the index of the first part with inline data at or after `i`, or none when no part has any |
| InngestHelpers.FindInline | inngest/helpers.ts:255-269 | the `for` loop over the parts finds the first part with inline data |
| InngestHelpers.ImageUrl | inngest/helpers.ts:202-271 | reading a missing job throws |
| InngestHelpers.ImageUrlUploadsFirstInline | inngest/helpers.ts:255-266 | when part `i` is the first with inline data, the url is the upload of that part's data |
| InngestHelpers.ImageUrlNullWithoutData | inngest/helpers.ts:249-269 | when no part has inline data the step returns null |
| InngestHelpers.GenerateImageUrl | inngest/helpers.ts:197-273 | the method is the "generate-image-url" step with that outcome |
| InngestHelpers.Settle | inngest/helpers.ts:322-332 | a final render status write succeeds exactly when the video exists, and then sets that video's `rendering`, leaves every other field, video and table as it was, and keeps the store well formed |
| InngestHelpers.Poll | inngest/helpers.ts:314-334 | an in-progress poll writes nothing; RENDERED is written only after a done poll, and NOT_RENDERED only after a poll that is fatal and not done; Output exactly when RENDERED |
| InngestHelpers.PollSettlesAtFirst | inngest/helpers.ts:314-334 | after polls that are all still in progress, the first poll that is done or fatal decides the outcome: RENDERED and the output file when done, otherwise NOT_RENDERED and its errors |
| InngestHelpers.PollTimesOut | inngest/helpers.ts:314-334 | when every poll up to the limit is still in progress, the step throws and writes nothing |
| InngestHelpers.DoneBeforeFatal | inngest/helpers.ts:322-333 | a poll reporting done gives RENDERED and the output file, whatever the fatal flag |
| InngestHelpers.StoppedPollNeverRendered | inngest/helpers.ts:314-334 | if no poll reports done, RENDERED is never written and any result is a render failure |
| InngestHelpers.PollRender | inngest/helpers.ts:314-334 | the `while` loop's writes and result are those of Poll from the first poll |
| InngestHelpers.SubmitAndPoll | inngest/helpers.ts:288-334 | RENDERED only after a successful submit to the first render function and a done poll |
| InngestHelpers.SubmitAndPollRender | inngest/helpers.ts:288-334 | the method's writes and result are those of SubmitAndPoll |
| InngestHelpers.RenderAttempt | inngest/helpers.ts:286-335 | a missing video throws a type error; RENDERING is written before anything else, followed by at most one of RENDERED or NOT_RENDERED |
| InngestHelpers.RenderBody | inngest/helpers.ts:286-335 | the method's writes and result are those of RenderAttempt |
| InngestHelpers.RenderVideo | inngest/helpers.ts:285-337 | the method is the "renderVideo" step with that attempt |
| InngestHelpers.VideoUrlAttempt | inngest/helpers.ts:276-283 | succeeds exactly when the render gave a file and the video exists, and then sets that video's `videoUrl` to the file, leaves every other field, video and table as it was, and keeps the store well formed |
| InngestHelpers.UpdateVideoUrl | inngest/helpers.ts:276-283 | the method is the "update-video-url" step with that attempt |
| InngestHelpers.MetadataFills | inngest/helpers.ts:343 | the metadata prompt replaces the first `{{SCRIPT}}` with the script |
| InngestHelpers.GenerateMetadata | inngest/helpers.ts:340-349 | the method is the "generate-metadata" step, then the fence-stripped parse outside it |
| InngestHelpers.UploadOnYoutube | inngest/helpers.ts:352-413 | the method is the access-token step, then the upload step |
| InngestHelpers.OrElse | inngest/helpers.ts:424-428 | `value or fallback`: the fallback exactly when the value is missing, empty or the fallback itself |
| InngestHelpers.OrZero | inngest/helpers.ts:430-431 | `value or 0`: zero exactly when the value is missing or zero |
| InngestHelpers.EmailPayloadOf | inngest/helpers.ts:420-433 | the payload carries the user's name and the fixed watch prefix followed by the upload id |
| InngestHelpers.EmailDefaults | inngest/helpers.ts:420-433 | without a snippet: "Unknown Channel", "Untitled Video", "No description available", no tags, and "" / 0 / 0 for the thumbnail |
| InngestHelpers.EmailKeepsSnippet | inngest/helpers.ts:423-427 | a non-empty channel title, title or description is carried over, and so are the tags |
| InngestHelpers.EmailAttempt | inngest/helpers.ts:419-452 | a missing user throws; otherwise one mail to the user's address with that payload, and a send error is returned, not thrown |
| InngestHelpers.SendEmail | inngest/helpers.ts:416-455 | the method is the "send-email-notification" step with that attempt |
| InngestHelpers.GetSchedule | inngest/helpers.ts:465-473 | the method is the "get-schedule" step reading the schedule by id |
| InngestHelpers.ScheduleStatusAttempt | inngest/helpers.ts:475-482 | succeeds exactly when the schedule exists, and then writes only its status |
| InngestHelpers.UpdateScheduleStatus | inngest/helpers.ts:475-482 | the method is the "update-schedule-status" step with that attempt |
| InngestHelpers.RenderOrReuse | inngest/helpers.ts:488-492 | a video without videoUrl is rendered; otherwise its stored url is reused and nothing is recorded |
| InngestHelpers.UploadVideo | inngest/helpers.ts:485-504 | the method is uploadVideo's sequence of steps |
| InngestHelpers.Publish | inngest/helpers.ts:494-502 | the method runs the url write, metadata, upload and e-mail in order |
| InngestHelpers.MetadataCompleted | inngest/helpers.ts:340-349 | a successful metadata step records one entry and writes nothing |
| InngestHelpers.UploadOnYoutubeCompleted | inngest/helpers.ts:352-413 | a successful upload records the token and upload steps and writes nothing |
| InngestHelpers.UpdateVideoUrlCompleted | inngest/helpers.ts:276-283 | a successful url write means the render gave a file, and the only effect is that url |
| InngestHelpers.EmailCompleted | inngest/helpers.ts:416-455 | a successful e-mail step means the user was found, and the only effect is one mail to them |
| InngestHelpers.PublishCompleted | inngest/helpers.ts:494-502 | after a successful publish the steps are url, metadata, token, upload, e-mail; the effects are the url write and one mail to the video's owner |
| InngestHelpers.RenderOrReuseCompleted | inngest/helpers.ts:488-492 | reuse changes nothing; a render records one step and writes RENDERING then RENDERED |
| InngestHelpers.UploadVideoOrder | inngest/helpers.ts:486-502 | a successful uploadVideo runs fetch, render only when videoUrl is missing, then url, metadata, token, upload and e-mail |
| InngestHelpers.UploadVideoReusesUrl | inngest/helpers.ts:486-502 | with a stored url, the effects are that url written back and one mail to the owner |
| InngestHelpers.UploadVideoRendersFirst | inngest/helpers.ts:486-502 | without a url, the effects are RENDERING, RENDERED, the rendered file as url, and one mail to the owner |
| InngestHelpers.MetadataQuiet | inngest/helpers.ts:340-349 | the metadata step never changes the store, however it ends |
| InngestHelpers.UploadOnYoutubeQuiet | inngest/helpers.ts:352-413 | the YouTube steps never change the store |
| InngestHelpers.PublishKeepsSchedules | inngest/helpers.ts:494-502 | publishing never changes the schedules table |
| InngestHelpers.UploadVideoKeepsSchedules | inngest/helpers.ts:485-504 | uploadVideo never changes the schedules table, however it ends |
| Pipelines.EmptyUrlRejected | inngest/helpers.ts:143-145 | an empty url from the image service leaves an undefined entry, so the `images` validator rejects the list |
| Pipelines.Present | inngest/functions.ts:70-79 | the image list passes the validator exactly when no entry is undefined, and then it is those urls in order |
| Pipelines.VideoDataAttempt | inngest/functions.ts:70-80 | "update-db-with-data" succeeds exactly when captions, title and every image are present and the video exists; then one write of all data with status COMPLETED |
| Pipelines.UpdateDbWithData | inngest/functions.ts:70-80 | the method is that step |
| Pipelines.Generate | inngest/functions.ts:49-80 | the method is the audio, captions, images, title and persist steps |
| Pipelines.Describe | inngest/functions.ts:59-80 | the method is the images, title and persist steps |
| Pipelines.CreateVideoTry | inngest/functions.ts:46-82 | the method is createVideo's try block |
| Pipelines.CreateVideo | inngest/functions.ts:31-88 | the method's run is CreateVideoRun: the try block, and on a throw the FAILED write and `false` |
| Pipelines.VideoDataCompleted | inngest/functions.ts:70-80 | a successful persist step writes audioUrl, captions, images, title and COMPLETED in one effect |
| Pipelines.ImagesQuiet | inngest/helpers.ts:112-151 | the image steps never write, and on success record the prompts and images steps |
| Pipelines.VideoDataStopped | inngest/functions.ts:70-80 | a persist step that does not go on writes nothing |
| Pipelines.DescribeStopped | inngest/functions.ts:59-80 | if the images, title or persist step stops, nothing has been written |
| Pipelines.DescribeCompleted | inngest/functions.ts:59-80 | on success the steps are prompts, images, title, persist, and the only effect is the COMPLETED data write |
| Pipelines.GenerateStopped | inngest/functions.ts:49-80 | if any generation step stops, the data write has not been applied |
| Pipelines.GenerateCompleted | inngest/functions.ts:49-80 | on success the steps are audio, captions, prompts, images, title, persist, and the only effect is the COMPLETED data write |
| Pipelines.CreateVideoRaised | inngest/functions.ts:46-83 | when the try block throws, either the video was missing and nothing was written, or the only write was PROCESSING |
| Pipelines.CreateVideoFlowCompleted | inngest/functions.ts:46-82 | a completed try block runs status, fetch, audio, captions, prompts, images, title, persist; its writes are PROCESSING then the COMPLETED data |
| Pipelines.CreateVideoSucceeds | inngest/functions.ts:46-82 | a run returning true has exactly those steps and those two writes |
| Pipelines.CreateVideoFails | inngest/functions.ts:83-86 | a run returning false wrote PROCESSING then FAILED and no data |
| Pipelines.CreateVideoMissing | inngest/functions.ts:47-86 | for a missing video both status steps fail, nothing is written, and the run ends by throwing |
| Pipelines.CreateVideoCancelled | inngest/functions.ts:34-39 | a run cancelled before its first step does nothing |
| Pipelines.Draw | inngest/functions.ts:111-115 | the method is the props, image-url and COMPLETED steps |
| Pipelines.GenerateImageTry | inngest/functions.ts:106-117 | the method is generateImage's try block |
| Pipelines.GenerateImage | inngest/functions.ts:90-123 | the method's run is GenerateImageRun: the try block, and on a throw the (FAILED, "") write and `false` |
| Pipelines.DrawStopped | inngest/functions.ts:111-115 | if the props, url or final write stops, nothing has been written |
| Pipelines.DrawCompleted | inngest/functions.ts:111-115 | on success the steps are props, url, update, and the only effect is (COMPLETED, url) with a non-null url |
| Pipelines.GenerateImageRaised | inngest/functions.ts:106-118 | when the try block throws, either the job was missing and nothing was written, or the only write was (PROCESSING, "") |
| Pipelines.GenerateImageFlowCompleted | inngest/functions.ts:106-117 | a completed try block writes (PROCESSING, "") then (COMPLETED, url), the url drawn for the job as patched |
| Pipelines.ImageReadBack | convex/images.ts:91-94 | after a successful job update the job reads back with only the new status and image |
| Pipelines.GenerateImageSucceeds | inngest/functions.ts:106-117 | a run returning true has the five steps and the writes (PROCESSING, "") and (COMPLETED, url) |
| Pipelines.GenerateImageReturnedTrue | inngest/functions.ts:117 | a run returns true only when its try block completed, and it ends where the try block did |
| Pipelines.GenerateImageFails | inngest/functions.ts:118-121 | a run returning false wrote (PROCESSING, "") then (FAILED, "") |
| Pipelines.GenerateImageWithoutData | inngest/functions.ts:111-115 | if the model never returns inline data, the null url fails the final write and the run does not return true |
| Pipelines.GenerateImageMissing | inngest/functions.ts:107-121 | for a missing job both update steps fail, nothing is written, and the run ends by throwing |
| Pipelines.GenerateImageCancelled | inngest/functions.ts:92-97 | a run cancelled before its first step does nothing |
| Pipelines.StoreRender | inngest/functions.ts:198-199 | the method is the render step, then the url step |
| Pipelines.RenderZentroVideo | inngest/functions.ts:182-206 | the method's run is RenderZentroRun: the try block, and `false` on a throw with no write |
| Pipelines.RenderZentroFetch | inngest/functions.ts:197-199 | the run first records "get-video-data" and passes the looked-up video on |
| Pipelines.StoreRenderCompleted | inngest/functions.ts:198-199 | success records render and url steps and writes RENDERING, RENDERED, then the file as url |
| Pipelines.RenderZentroSucceeds | inngest/functions.ts:196-201 | a run returning true has the three steps and exactly those three writes |
| Pipelines.StoreRenderFailure | inngest/functions.ts:198-199 | after a fatal render the url step fails: RENDERING and NOT_RENDERED are written and the error object is never stored |
| Pipelines.RenderZentroFailureNotStored | inngest/functions.ts:196-204 | a run whose render fails returns false with no videoUrl write |
| Pipelines.RenderZentroCancelled | inngest/functions.ts:184-189 | a run cancelled before its first step does nothing |
| Pipelines.SleepUntil | inngest/functions.ts:145 | the method is `step.sleepUntil`: records the wait, or throws when the schedule has no datetime |
| Pipelines.SendEvent | inngest/functions.ts:154-160 | the method is `inngest.send`, outside any step: one Sent effect, or a throw |
| Pipelines.CompleteSchedule | inngest/functions.ts:151-160 | the method is the COMPLETED write, then the re-send for SMART schedules |
| Pipelines.UploadAndComplete | inngest/functions.ts:149-151 | the method is uploadVideo, then CompleteSchedule |
| Pipelines.UploadScheduled | inngest/functions.ts:146-168 | the method is the PROCESSING write, then UploadAndComplete |
| Pipelines.ScheduleUpload | inngest/functions.ts:127-178 | the method's run is ScheduleUploadRun: the try block, and `false` on a throw with no status write |
| Pipelines.ScheduleSleepsFirst | inngest/functions.ts:143-146 | before the sleep only the schedule is read; the run then sleeps until its datetime and nothing is written |
| Pipelines.ScheduleMissing | inngest/functions.ts:143-176 | for a missing schedule the sleep throws, nothing is written, and the run returns false |
| Pipelines.CompleteScheduleCompleted | inngest/functions.ts:151-160 | on success COMPLETED is written, followed for SMART by exactly one re-sent schedule event |
| Pipelines.CompleteScheduleSendFails | inngest/functions.ts:151-160 | a failed re-send throws after COMPLETED has been written |
| Pipelines.UploadVideoExtends | inngest/helpers.ts:485-504 | a successful uploadVideo only appends effects |
| Pipelines.UploadAndCompleteCompleted | inngest/functions.ts:149-160 | on success uploadVideo's steps run, then the status step; the schedule ends COMPLETED, and the last effects are that write and any SMART re-send |
| Pipelines.UploadScheduledCompleted | inngest/functions.ts:146-160 | on success the steps are PROCESSING, uploadVideo's steps and COMPLETED, and the schedule ends COMPLETED |
| Pipelines.ScheduleCancelledEarly | inngest/functions.ts:130-135 | a schedule cancelled during the read or the wait writes nothing |
| Pipelines.ScheduleUploadSucceeds | inngest/functions.ts:143-172 | a run returning true: read, wait, PROCESSING, uploadVideo's steps, COMPLETED; writes PROCESSING first, COMPLETED last, then any SMART re-send |
| Pipelines.SmartRerunSleepsUntilSameTime | inngest/functions.ts:146-160 | a SMART run ends by re-sending its own schedule's event, and the re-run sleeps until the same datetime |
| Pipelines.CompleteScheduleKeeps | inngest/functions.ts:151 | the final status step leaves the schedule as it was or COMPLETED |
| Pipelines.UploadAndCompleteKeeps | inngest/functions.ts:149-151 | uploadVideo and the final status step leave the schedule as it was or COMPLETED |
| Pipelines.UploadScheduledKeeps | inngest/functions.ts:146-168 | after waking, the schedule ends as it was, PROCESSING or COMPLETED, with nothing else changed |
| Pipelines.ScheduleUploadNeverFails | inngest/functions.ts:174-176 | however the run ends, the schedule's status is never FAILED: the failure handler writes nothing |
| Pipelines.ScheduleUploadCancelled | inngest/functions.ts:130-135 | a run cancelled before its first step does nothing |
| JsStrings.FindFrom | lib/helpers.ts:64 | the first position at or after `from` where the pattern occurs, or none |
| JsStrings.FindFirst | lib/helpers.ts:64 | the first occurrence of the pattern, or none when it does not occur |
| JsStrings.ExpandDollarFree | lib/helpers.ts:87 | a replacement without `$` is inserted literally |
| JsStrings.FillOne | lib/helpers.ts:87 | filling a template whose head has no `{{` replaces exactly the first placeholder with the value |
| JsStrings.FillLeavesLaterOccurrences | lib/helpers.ts:64 | a second occurrence of the placeholder survives the fill |
| JsStrings.SkipWs | lib/helpers.ts:10 | the end of the leading whitespace run |
| JsStrings.BackWs | lib/helpers.ts:10 | the start of the trailing whitespace run |
| LibHelpers.CleanCuts | lib/helpers.ts:7-10 | the front cut is at most one leading "```json" and whitespace; the back cut is whitespace, plus the last three characters only when they are "```"; the result starts and ends with non-whitespace |
| LibHelpers.CleanUnfenced | lib/helpers.ts:10 | a reply without fences is only trimmed |
| LibHelpers.CleanKeepsUntaggedFence | lib/helpers.ts:8 | a leading "```" without the json tag is not removed |
| LibHelpers.OneOpenFenceOnly | lib/helpers.ts:8 | only one leading "```json" is removed |
| LibHelpers.CleanFencedBlock | lib/helpers.ts:7-12 | a fenced block with whitespace around its body cleans to the trimmed body |
| LibHelpers.CleanLayout | lib/helpers.ts:7-12 | the same, stated for any reply with that layout |
| LibHelpers.CleanLayoutBlank | lib/helpers.ts:7-10 | a fenced block with a blank body cleans to the empty string |
| LibHelpers.StreamReader.Read | lib/helpers.ts:28 | `reader.read()`: the next scripted result and one step on, or done at the end |
| LibHelpers.StreamReader.Cancel | lib/helpers.ts:38 | `reader.cancel`: marks the stream cancelled and changes nothing else |
| LibHelpers.StreamReader.ReleaseLock | lib/helpers.ts:41 | `reader.releaseLock`: releases the lock and changes nothing else |
| LibHelpers.ConcatLength | lib/helpers.ts:35-44 | the concatenation's length is the sum of the chunk lengths |
| LibHelpers.Zeros | lib/helpers.ts:44 | `n` bytes, every one of them zero |
| LibHelpers.BufferConcat | lib/helpers.ts:44 | `Buffer.concat(list, totalLength)` has exactly `totalLength` bytes |
| LibHelpers.BufferConcatExact | lib/helpers.ts:44 | with the true total, `Buffer.concat` is the chunks in order |
| LibHelpers.GetAudioBuffer | lib/helpers.ts:19-45 | the chunks read up to done are concatenated in read order, with length the sum of theirs; on a read error the stream is cancelled and the error returned; the lock is always released |
| LibHelpers.TitlePromptFills | lib/helpers.ts:63-68 | titleGenerator replaces only the first `{{CONTENT}}` with the content |
| LibHelpers.EnhancePromptFills | lib/helpers.ts:86-91 | enhancePrompt replaces only the first `{{PROMPT}}` with the prompt |

## Left out

- The hosted durable engine is reduced to the ledger, the effects trace and one cancel point. This includes step memoisation and replay, the timer behind `sleepUntil`, and event delivery. No `createFunction` sets `retries`, so the engine retries a failed step by default before the `catch` sees the error; the model runs each step once, so a retried "renderVideo", which writes RENDERING again and re-submits the render, is not modelled. Backoff and duplicate-dispatch rejection are not modelled either.
- Cancellation is observed only before a step starts. A step that is already running completes.
- Every external service is a fixed outcome supplied as input. These are Deepgram, Gemini, Nebius, ImageKit, Remotion Lambda, YouTube, the OAuth token endpoint, Resend, `mime.lookup`, `axios` and `inngest.send`.
- `JSON.parse` is a parser function supplied as input.
- The regex engine is replaced by the anchored fence and whitespace cuts that `cleanJSONResponse`'s two patterns perform. `\s` is JavaScript's whitespace set: the ASCII space characters, no-break space, the Unicode space separators, the line and paragraph separators and the byte-order mark.
- Time and randomness are inputs: `new Date().toISOString()` is a clock indexed by the step position, and the file names use `Date.now`/`Math.random`.
- The 1 s poll delay is not modelled.
- `updatedAt` is ordered through a key function supplied with the query.
- `Promise.all` in the image fan-out is a sequential, order-preserving map.
- InngestHelpers.Poll: the `while (true)` loop is bounded by a poll limit. The bound stands for the host stopping the step; a render still in progress at the limit throws.
- InngestHelpers.ReferenceImage: it sends the intended mime type (InngestHelpers.MimeType, image/jpeg for an unknown extension), so GenerateImageUrl, Draw and GenerateImage follow the corrected program. The code as written sends "false" for an unknown extension; the Findings row records this with InngestHelpers.MimeTypeAsWrittenUnknown.
- Tables.SortDesc: it states the permutation and the descending order, not the order among documents with equal keys, which JavaScript's stable sort keeps. The listing order of videos with equal `updatedAt` is left open.
- InngestHelpers.ImageUrl: its own contract states only the missing-job error. The first-inline-part behaviour is stated by ImageUrlUploadsFirstInline and ImageUrlNullWithoutData.
- A response without candidates makes the image step return undefined. The model treats it like null.
- Pipelines.SleepUntil: a schedule without a datetime makes `sleepUntil` throw and record nothing. How the engine reacts to an undefined time is library behaviour.
- The three getters `getVideo`, `getImageGeneration` and `getSchedule` are Tables.Get or InngestHelpers.Lookup read inside their steps. None has a caller check.
- Convex argument validators are modelled only where a pipeline can violate them. These are a null `image`, an undefined entry in `images`, and a non-string `videoUrl`, and they make that step throw.
- The render status writes inside renderVideo are direct mutations through the Convex client. They are not separate steps, and are modelled as writes inside the "renderVideo" step.
- The schema comment names a NOT_FOUND render status, but the code writes NOT_RENDERED. The model follows the code.
- renderZentroVideo writes the value renderVideo returns without checking it. Because `videoUrl` is validated as a string, the error object of a fatal render makes the url step throw instead of being stored. This is stated by Pipelines.StoreRenderFailure.
- `getChannelData` and `getVideoStream` in lib/helpers.ts are only HTTP calls and are not modelled.
- The UI, the HTTP routes other than the three cancel routes, config, the prompt texts and the composition fixtures are not part of this model.
- Concurrency between runs is not modelled. Each run is proved on its own from a given store.

## Findings

| source | as written | input that shows it | evidently intended | confidence | as-written member | corrected member |
|---|---|---|---|---|---|---|
| inngest/helpers.ts:221-223 | the mime type is `lookup(url)?.toString()`, or "image/jpeg" when that is falsy | a selected image whose url has no known extension: `mime.lookup` yields `false`, `false?.toString()` is the truthy "false", so the mime type sent is "false" | the image/jpeg default for an unknown type | not executed | InngestHelpers.MimeTypeAsWrittenUnknown | InngestHelpers.MimeType |
