# Music video generator: a Dafny model of its core

The application turns a piece of music into a video. It analyses an uploaded
audio file (beats, tempo, per-segment moods), asks an image model for scene
images whose prompt is derived from the music, and turns scene images into
short clips with an image-to-video provider, polling each job until it settles.

This project models the logic of that pipeline:

- `generate_video_route.dfy`: the `POST` handler of the generate-video API
  route. It covers the clip-duration rule, the submitted job and the poll,
  which is capped at 30 retrievals. It also covers how a settled task and any
  thrown error become the JSON answer.
- `video_generator_service.dfy`: `assembleVideoSequences`. For each scene image
  it creates a job and polls it with no attempt bound. A failure aborts the call;
  otherwise every output is stored through the download helper.
- `file_utils.dfy`: the download helper `downloadFile`. It checks its arguments
  and returns the stored path.
- `image_generator_service.dfy`: the enhanced prompt, the checks on the image
  API's answers, `generateImageVariations` and `generateSceneImages`.
- `audio_analysis_service.dfy`: `analyzeAudio`. It builds the request form,
  shapes the result, applies the mood fallback and wraps errors.
- `directory_utils.dfy`: `generateAnalysisDir`, which turns a timestamp and a
  file name into a directory name.
- `audio_upload.dfy`: the file-type check of the audio upload component, with
  its `error` state.
- `runway_tasks.dfy`, `form_data.dfy`, `js_values.dfy`: the provider's task
  record, the browser `FormData` filled in place, and the JavaScript values
  the services share. Those values are `undefined`, thrown errors, truthiness
  and the decimal rendering of numbers.

Each external service is an oracle passed as a parameter: the image-to-video
provider, the image API, the image proxy, the analysis server, the download
endpoint and the clock. The provider's `retrieve(k)` is the answer to the
(k+1)-th status retrieval. A call that throws gives `Err(fault)`, where `fault`
is an `Error(message)` or some other thrown value. The route handler and the
service functions, which work step by step, are `method`s proved equal to
specification functions, and the properties are lemmas about those functions.
The handlers of the upload component and the form's `append` update object
state in place; their contracts give the new state directly.

## Model

| member | source | states |
|---|---|---|
| JsValues.Or | src/app/api/generate-video/route.ts:19 | the or-operator on possibly absent strings: the first when truthy (present and non-empty), else the second |
| JsValues.NatToDecimal | src/app/services/videoGeneratorService.ts:42 | a number inside a template renders as a non-empty run of decimal digits, without a leading zero unless it is 0 |
| JsValues.DecimalRoundTrip | src/app/services/videoGeneratorService.ts:42 | reading the rendered digits back gives the number: the rendering loses nothing |
| JsValues.NatToDecimalInjective | src/app/services/videoGeneratorService.ts:42 | two different numbers never render the same |
| RunwayTasks.FailureMessage | src/app/api/generate-video/route.ts:38 | a failed task's message is "Video generation failed: " followed by the failure when truthy, else the failure code, else `undefined` |
| GenerateVideoRoute.ClipDuration | src/app/api/generate-video/route.ts:12 | the duration is 5 or 10. It is 5 exactly when the tempo is above 120 or there are more than 16 beats; a missing tempo compares false |
| GenerateVideoRoute.ClipDurationMonotone | src/app/api/generate-video/route.ts:12 | more beats or a faster tempo never give a longer clip |
| GenerateVideoRoute.BuildJob | src/app/api/generate-video/route.ts:14-21 | the job always uses model `gen3a_turbo` and no watermark. It takes the request's image and prompt text and the duration rule's value. Its ratio is the request's ratio when truthy, else `16:9` |
| GenerateVideoRoute.PollFrom | src/app/api/generate-video/route.ts:23-35 | a retrieval that throws ends the poll with the counter below 30. A kept task came from retrievals 1-29 and is not `RUNNING` |
| GenerateVideoRoute.TaskResponse | src/app/api/generate-video/route.ts:37-45 | a `FAILED` task gives its failure message. Otherwise the answer is a URL exactly when `output[0]` is present and non-empty, and the URL is `output[0]`. Any other task gives "No video output received" |
| GenerateVideoRoute.ErrorText | src/app/api/generate-video/route.ts:49 | the error text of a 500 is the thrown `Error`'s message, or "Failed to generate video" for any other thrown value |
| GenerateVideoRoute.RouteResponse | src/app/api/generate-video/route.ts:4-53 | the handler's answer: a throw from submission or retrieval becomes a 500 with its text, and a timeout becomes "Video generation timed out". A kept task gives its own response, and a URL is answered exactly when the task kept gives one |
| GenerateVideoRoute.Post | src/app/api/generate-video/route.ts:4-53 | the handler submits the built job and answers as the specification function does. `attempts` counts the retrievals that returned (0 when submission throws) and never exceeds 30 |
| GenerateVideoRoute.PollSkipsRunning | src/app/api/generate-video/route.ts:27-35 | answers that return status exactly `RUNNING` only move the poll on to the next retrieval |
| GenerateVideoRoute.PollStopsAtFirstNonRunning | src/app/api/generate-video/route.ts:29-35 | the poll ends at the first answer that is not `RUNNING`, and retrieves exactly that many times. A throw is passed on; a task on retrievals 1-29 is kept whatever its status |
| GenerateVideoRoute.PollTrace | src/app/api/generate-video/route.ts:24-35 | a finished poll made between 1 and 30 retrievals. Every answer before the last was `RUNNING`, and the result is the last answer |
| GenerateVideoRoute.PollTimesOutIff | src/app/api/generate-video/route.ts:32-34 | the poll times out exactly when the first 29 answers are `RUNNING` and the 30th returns, whatever the 30th status is |
| GenerateVideoRoute.PollReadsOnlyItsRetrievals | src/app/api/generate-video/route.ts:27-35 | the poll's outcome depends only on the answers to the retrievals it made |
| GenerateVideoRoute.RouteSuccessIsFirstOutput | src/app/api/generate-video/route.ts:37-45 | a URL answer means three things: the job was created; the task was kept on retrievals 1-29 and is neither `RUNNING` nor `FAILED`; the URL is that task's first output |
| GenerateVideoRoute.RouteDecidedByFirstNonRunning | src/app/api/generate-video/route.ts:32-51 | the first answer that is not `RUNNING` decides the response. A throw becomes a 500 with the thrown message; the 30th retrieval becomes the timeout; otherwise the task's own response |
| FileUtils.DownloadFile | src/utils/fileUtils.ts:1-25 | a falsy url, filename or analysis id is rejected with "Missing required parameters for file download" before any request. A path is returned exactly when the endpoint stores the file. A refusal gives the endpoint's error, else "Failed to download file" |
| VideoGeneratorService.SceneJobFor | src/app/services/videoGeneratorService.ts:19-26 | image `i`'s job uses `gen3a_turbo`, image `i` and the options. It uses `beats[i]`, which is absent past the end of `beats` |
| VideoGeneratorService.VideoFileName | src/app/services/videoGeneratorService.ts:42 | the stored file's name is never empty, so it never trips the helper's argument check |
| VideoGeneratorService.VideoFileNameInjective | src/app/services/videoGeneratorService.ts:42 | two stores share a file name only if they share the image index and the clock reading |
| VideoGeneratorService.StoreOutputs | src/app/services/videoGeneratorService.ts:41-44 | storing the outputs from position `j` on gives one path per remaining output when it succeeds. Without a truthy analysis id it fails at once with the missing-parameter error |
| VideoGeneratorService.Contribution | src/app/services/videoGeneratorService.ts:34-45 | once a poll has ended: a throw passes on; `FAILED` gives "Video generation failed: …"; an absent or empty output list adds nothing; a success adds one path per output |
| VideoGeneratorService.ImageOutcome | src/app/services/videoGeneratorService.ts:22-45 | one image's create, poll and store: a throw from submission passes on, and a success means the job was created and adds one path per output |
| VideoGeneratorService.AssembleFrom | src/app/services/videoGeneratorService.ts:18-48 | the images from `i` on, in order: a success means every one of them went through |
| VideoGeneratorService.AssembleFailsAtFirstFailingImage | src/app/services/videoGeneratorService.ts:18-46 | a failed call fails with the fault of its first failing image, and every image before that one went through; the paths stored for them are not returned |
| VideoGeneratorService.PollLength | src/app/services/videoGeneratorService.ts:28-32 | the unbounded poll retrieves up to the first answer that throws or is `SUCCEEDED` or `FAILED`, and stops there |
| VideoGeneratorService.PollJob | src/app/services/videoGeneratorService.ts:28-32 | the do/while loop returns that first ending answer after exactly that many retrievals |
| VideoGeneratorService.StoreEach | src/app/services/videoGeneratorService.ts:41-44 | storing an image's outputs pushes the stored paths after the earlier ones, in output order. The first failing store ends the call |
| VideoGeneratorService.ProcessScene | src/app/services/videoGeneratorService.ts:19-45 | one pass of the loop submits the job for image `i` and then adds exactly that image's outcome to the paths stored so far: its fault, or its stored paths after the earlier ones. A poll count is recorded exactly when the create did not throw, and it is that poll's retrieval count |
| VideoGeneratorService.AssembleVideoSequences | src/app/services/videoGeneratorService.ts:4-49 | the service equals the in-order specification. Job `i` is the one for image `i`; each poll's retrieval count is recorded; on success every image was processed. A failed call submitted jobs only up to and including its first failing image, and every image before that one went through; its poll counts cover every submitted job, and miss only the last one, exactly when that job's create threw |
| VideoGeneratorService.StoreOutputsShape | src/app/services/videoGeneratorService.ts:41-44 | a successful store of an image's outputs gives one path per output, in order. Each path is the one the endpoint returned for that output |
| VideoGeneratorService.AssembleAccountsForEveryOutput | src/app/services/videoGeneratorService.ts:18-48 | a successful call created every job; every poll ended other than `FAILED`; one path was returned per output across all images |
| VideoGeneratorService.StoreOutputsWithoutId | src/app/services/videoGeneratorService.ts:42 | without an analysis id, storing a non-empty output list fails with the missing-parameter error |
| VideoGeneratorService.ContributionWithoutId | src/app/services/videoGeneratorService.ts:38-45 | without an analysis id, an image either fails or had no outputs and adds no paths |
| VideoGeneratorService.AsWrittenStoresNothing | src/app/services/videoGeneratorService.ts:42 | as written, with no analysis id, a successful call returns no paths and saw no outputs at all |
| VideoGeneratorService.AsWrittenRejectsFirstOutput | src/app/services/videoGeneratorService.ts:42 | as written, when the first image's job succeeds with an output, the whole call rejects with the missing-parameter error |
| VideoGeneratorService.StoreOutputsAllStored | src/app/services/videoGeneratorService.ts:41-44 | with an analysis id, non-empty URLs and an endpoint that stores each one, storing succeeds |
| VideoGeneratorService.WithAnalysisIdStoresEveryOutput | src/app/services/videoGeneratorService.ts:42 | with the analysis id passed, jobs that end other than `FAILED` and stores that succeed give one path per output |
| ImageGeneratorService.TempoDescription | src/app/services/imageGeneratorService.ts:73-77 | the tempo phrase is empty exactly for a missing or zero tempo. Above 120 it is "dynamic and energetic", above 90 "balanced and flowing", otherwise "calm and measured" |
| ImageGeneratorService.TempoDescriptionMonotone | src/app/services/imageGeneratorService.ts:73-77 | a faster non-zero tempo never gets a calmer phrase |
| ImageGeneratorService.MoodStyle | src/app/services/imageGeneratorService.ts:79-81 | the vibrant style is chosen exactly for the theme `energetic`; every other theme gets the soft style |
| ImageGeneratorService.RenderTransition | src/app/services/imageGeneratorService.ts:86 | one transition renders as "from ", its first mood verbatim, " to " and its second mood verbatim |
| ImageGeneratorService.JoinTransitions | src/app/services/imageGeneratorService.ts:85-87 | the joined list is empty exactly for an empty list, and starts with the first transition's rendering |
| ImageGeneratorService.JoinTransitionsAppend | src/app/services/imageGeneratorService.ts:85-87 | joining keeps list order: joining a concatenation gives the two joins separated by ", " |
| ImageGeneratorService.TransitionsDescription | src/app/services/imageGeneratorService.ts:83-89 | the transitions sentence is empty exactly for a missing or empty list. Otherwise it is the lead followed by the joined transitions |
| ImageGeneratorService.EnhancedPrompt | src/app/services/imageGeneratorService.ts:91-102 | the prompt is a head, then the base description, then a tail; the lengths add up. The head depends on the style, theme, tempo phrase and transitions, and the tail on the theme |
| ImageGeneratorService.SceneDetailsRoundTrip | src/app/services/imageGeneratorService.ts:95 | the base description is carried verbatim and can be read back out of the prompt |
| ImageGeneratorService.PromptStatesStyle | src/app/services/imageGeneratorService.ts:91 | the prompt states the style phrase right after its opening words |
| ImageGeneratorService.PromptStatesTheme | src/app/services/imageGeneratorService.ts:92 | the prompt states the theme verbatim in the overall-mood sentence |
| ImageGeneratorService.PromptStatesBase | src/app/services/imageGeneratorService.ts:95 | the base description appears verbatim after the prompt's head |
| ImageGeneratorService.ApiErrorIsDistinct | src/app/services/imageGeneratorService.ts:137 | an error-status message never reads as an empty-answer message |
| ImageGeneratorService.Urls | src/app/services/imageGeneratorService.ts:50 | one URL per returned item, in order |
| ImageGeneratorService.FirstImageUrl | src/app/services/imageGeneratorService.ts:135-146 | an error status gives the "OpenAI API Error" message with status and body. An ok answer with no data gives "No images returned from the API". Otherwise the result is the first image's URL |
| ImageGeneratorService.VariationUrls | src/app/services/imageGeneratorService.ts:39-50 | the same checks for variations, with "No variations returned from the API"; success returns every URL in order |
| ImageGeneratorService.VariationsForm | src/app/services/imageGeneratorService.ts:25-28 | the posted form has three fields; the first is the image, sent as a PNG blob |
| ImageGeneratorService.Variations | src/app/services/imageGeneratorService.ts:14-55 | a proxy throw passes on unchanged, and a non-ok proxy status gives the proxy message with that status. After an ok proxy, a throw of the post passes on unchanged and an answered post gives exactly that answer's check: an API error, no variations, or every URL in order |
| ImageGeneratorService.GenerateImageVariations | src/app/services/imageGeneratorService.ts:14-55 | the method equals its specification. It posts a form exactly when the proxy answered ok, and the form posted is the image, `n` = 4 and `size` = 1024x1024 |
| ImageGeneratorService.ResolutionText | src/app/services/imageGeneratorService.ts:3 | each resolution is sent as a nine-character `WIDTHxHEIGHT` string |
| ImageGeneratorService.SceneRequest | src/app/services/imageGeneratorService.ts:119-133 | the generation request asks `dall-e-3` for one vivid image of the enhanced prompt, at the requested size (as its string) and quality |
| ImageGeneratorService.SceneOutcome | src/app/services/imageGeneratorService.ts:111-160 | every error passes through unchanged: a throw of the generation call, an error status as the "OpenAI API Error" message, no data as "No images returned from the API", and a failure of the variations. After a first image URL, the result is that URL, the enhanced prompt and the variations, exactly when the variations succeed |
| ImageGeneratorService.GenerateSceneImages | src/app/services/imageGeneratorService.ts:111-160 | the method sends the specified request and equals its specification |
| AudioAnalysisService.OverallMood | src/app/services/audioAnalysisService.ts:41 | the overall mood is the first segment's mood when truthy, else "neutral"; it is never empty |
| AudioAnalysisService.OverallMoodIgnoresLaterSegments | src/app/services/audioAnalysisService.ts:41 | segments after the first never affect the overall mood |
| AudioAnalysisService.Shape | src/app/services/audioAnalysisService.ts:36-43 | the result copies beats, tempo and segments and adds the overall mood. A body without segments throws the `TypeError` of reading `segments[0]` |
| AudioAnalysisService.Analysis | src/app/services/audioAnalysisService.ts:20-48 | every failure becomes "Failed to analyze audio file". Success means the fetch and the post were answered with an ok status and segments were present |
| AudioAnalysisService.AnalyzeAudio | src/app/services/audioAnalysisService.ts:20-48 | the method posts a form holding only the fetched audio under `file`, and equals its specification. On success the result is shaped from the server's body |
| FormDataModel.FormData.constructor | src/app/services/audioAnalysisService.ts:22 | a new form is empty |
| FormDataModel.FormData.Append | src/app/services/audioAnalysisService.ts:25 | `append` adds one field after all earlier ones and drops none |
| DirectoryUtils.SanitizeChar | src/utils/directoryUtils.ts:2 | a `:` or `.` becomes `-`, every other character is kept, and the result is never `:` or `.` |
| DirectoryUtils.Sanitize | src/utils/directoryUtils.ts:2 | the replacement preserves length |
| DirectoryUtils.SanitizeAt | src/utils/directoryUtils.ts:2 | each character is replaced independently, in place: one `-` per separator, every other character unchanged |
| DirectoryUtils.SanitizePointwise | src/utils/directoryUtils.ts:2 | the same, for all positions at once |
| DirectoryUtils.NoSeparatorLeft | src/utils/directoryUtils.ts:2 | the sanitised timestamp contains no `:` or `.` |
| DirectoryUtils.SanitizeIdempotent | src/utils/directoryUtils.ts:2 | sanitising twice is sanitising once |
| DirectoryUtils.SanitizeKeepsClean | src/utils/directoryUtils.ts:2 | a string without `:` or `.` is left unchanged |
| DirectoryUtils.GenerateAnalysisDir | src/utils/directoryUtils.ts:1-3 | the name is the sanitised timestamp, an underscore, then the file name verbatim, with its own `:` and `.` kept |
| DirectoryUtils.FileNameRoundTrip | src/utils/directoryUtils.ts:3 | for a timestamp without an underscore, the file name is exactly what follows the first underscore of the name |
| AudioUploadComponent.FirstFile | src/components/AudioUpload.tsx:18 | the first selected file, absent for a missing or empty list |
| AudioUploadComponent.AudioUpload.constructor | src/components/AudioUpload.tsx:9 | a new component shows no error and has selected nothing |
| AudioUploadComponent.AudioUpload.ValidateFile | src/components/AudioUpload.tsx:24-32 | a file whose type is exactly `audio/mp3` or `audio/wav` clears the error and reaches the callback once. Any other type sets "Invalid file type. Please upload an MP3 or WAV file." and does not reach the callback |
| AudioUploadComponent.AudioUpload.HandleFileSelect | src/components/AudioUpload.tsx:17-22 | only the first chosen file is validated. With no file chosen, neither the error nor the callback log changes |
| AudioUploadComponent.AudioUpload.HandleDrop | src/components/AudioUpload.tsx:11-15 | only the first dropped file is validated. An empty drop throws before any state changes |
| AudioUploadComponent.DropIgnoresLaterFiles | src/components/AudioUpload.tsx:13-14 | after a drop on a fresh component, only the first file's type decides the outcome |
| AudioUploadComponent.AcceptsValidAudioFiles | src/app/tests/AudioUpload.test.tsx:7-18 | choosing an MP3 file hands that file to the callback and shows no error |
| AudioUploadComponent.RejectsInvalidFileTypes | src/app/tests/AudioUpload.test.tsx:20-31 | choosing a text file never reaches the callback and shows the invalid-type error |

## Left out

- The route's request parsing (`request.json()`, src/app/api/generate-video/route.ts:6) is not modelled. The body is taken as well formed, with `options` and `beats` present. A missing `options` would throw a TypeError inside the `try` and become a 500.
- Creating the provider and image clients and reading API keys from the environment are not modelled. Console logging and the `setTimeout` waits before each retrieval are left out too; the waits only order the calls.
- Tempo, beats and times are exact reals. NaN, infinities and the decimal rendering of floating-point values are not modelled.
- VideoGeneratorService.SceneJobFor: the prompt text `Motion intensity: …, Duration: …` is kept as the three values it renders. The floating-point product `durationPerBeat * beat`, and the `NaN` it gives past the end of `beats`, are not rendered.
- VideoGeneratorService.AssembleVideoSequences: it requires every job's poll to end eventually. The source's poll has no bound, so a job that never reaches `SUCCEEDED` or `FAILED` makes the source wait forever; the model does not describe that non-termination.
- RunwayTasks.FailureMessage: an absent failure code renders as `undefined`. A JSON `null` field would render as `null`, and the model does not tell the two apart.
- `encodeURIComponent` on the proxy URL and `JSON.stringify` of the error body are not modelled. The proxy oracle is keyed by the image URL, and the error body is given as its rendered text.
- JSON parse failures of any answer are not modelled separately; they are part of the oracle's `Err` answer.
- AudioAnalysisService.Shape: the `TypeError` message is the one V8 gives; other engines word it differently. `analyzeAudio` replaces it with its own message, so it never reaches a caller.
- AudioAnalysisService.AnalyzeAudio: a non-ok response from the audio fetch still yields a blob, as in the source. Only a throw from the fetch or from `blob()` is an error.
- The audio upload component's rendering, its drag-over handler and the callback's own effects are not modelled. The callback is a log of the files it was given.
- The second component in src/components/AudioUpload.tsx (lines 52-122) imports Python functions into TypeScript, so it does not form a working component. It is not part of this model.
- The clock is a parameter: `new Date().toISOString()` is the `timestamp` argument, and `Date.now()` is the storage oracle's `clock`.
- python-scripts/audio_analysis.py is not part of this model: it is numeric feature extraction and Flask request handling.
- src/app/services/sceneGeneratorService.ts and src/app/services/loggingService.ts are not part of this model. Neither are the download, proxy-image, analyze and log-results API routes, src/app/page.tsx and the audio store; they are plumbing around the modelled core.

## Findings

| source | as written | input that shows it | evidently intended | confidence | as-written member | corrected member |
|---|---|---|---|---|---|---|
| src/app/services/videoGeneratorService.ts:42 | `downloadFile(url, filename)` omits the third argument `analysisId`. The helper rejects a falsy one with "Missing required parameters for file download" (src/utils/fileUtils.ts:2-4) | one scene image whose job succeeds with one output URL: the call rejects with the missing-parameter error instead of returning a path | pass the analysis identifier, so that every output of every image is stored and its path returned | high, not executed | VideoGeneratorService.AsWrittenRejectsFirstOutput | VideoGeneratorService.WithAnalysisIdStoresEveryOutput |
