# yt-shortmaker, modelled in Dafny

yt-shortmaker turns a long YouTube video into short vertical clips. It takes a
video URL, downloads a low-resolution copy and cuts it into 30-minute chunks.
Each chunk goes to a Gemini model, which returns "moments" as JSON: a category,
a description, start and end times, and optional dialogue. The moments from all
chunks are collected, and the session is saved after every chunk so that an
interrupted run can resume. The tool then writes a readable moments.txt and
extracts one clip per moment.

Around that pipeline sit several smaller pieces:

- a credential pool, shared by two Gemini clients, that disables keys that run
  out of quota and rotates keys on other failures;
- an OpenRouter client with a bounded, modular-cursor retry loop;
- a composition template (the "plano") with size and position keywords and a
  comment-stripping pre-parser;
- the settings file and its key list;
- a terminal UI whose URL box is a line editor;
- a Whisper-to-ASS subtitle writer;
- a parser for ffmpeg `cropdetect` output.

This project models that logic and proves properties of it. There is one Dafny
module per source file:

- `Video`: the chunk planner, the HH:MM:SS codec and the URL check.
- `KeyPool`: the Gemini key pool as a `KeyRing` class over a `Pool` value.
- `FileApi`: the Gemini upload and poll replies, and the 60-check poll loop.
- `Moments`: fence stripping and the rebasing of chunk-relative times.
- `Google` and `Gemini`: the two Gemini clients and their retry loops.
- `OpenRouter`: the OpenRouter client.
- `Pipeline`: the session logic of `main.rs`.
- `Exporter`, `Config`, `Tui`, `Whisper` and `FaceTracking`: the modules of
  the same names.
- `Wrappers`, `Text`, `Decimal` and `Types`: shared helpers.

Every network reply, file-system answer and JSON parse is an input. A bounded
loop receives its replies as a function from the attempt number to a reply. An
unbounded retry loop receives a finite sequence of replies, and reports
`Retrying` if the replies run out before the loop ends.

Where the code and its description differ, the model follows the code:

- `wait_for_file_active` in `gemini.rs` has no check for a "FAILED" state;
  the one in `google.rs` does. `FileApi.PollFrom` takes a flag for this.
- In `openrouter.rs`, a success status whose body does not decode returns an
  error through `?`. It does not return an empty list.
- Both Gemini clients rebase times only when the chunk offset is positive.
- `types.rs` declares no dialogue field, no subtitle segment and no face
  region. The model adds `dialogue` to `Moment`, because both providers read
  and write it. `SubtitleSegment` and `FaceRegion` are declared in the modules
  that use them.

## Model

| member | source | states |
|---|---|---|
| Video.CalculateChunks | src/video.rs:223-243 | the loop's result is the planner function `Plan(total)` |
| Video.PlanShape | src/video.rs:223-243 | the plan is empty iff the duration is 0; chunks start at 0 and are contiguous; every chunk but the last is 1800 s; the last is 1..2700 s; the lengths sum to the duration |
| Video.PlanShort | src/video.rs:229-235 | a duration of 1 to 2700 s gives exactly one chunk `(0, d)` |
| Video.PlanFromCount | src/video.rs:229-240 | the chunk count is k+1 exactly when the remainder lies in the k-th 1800 s band above 2700 s |
| Video.PlanExamples | src/video.rs:401-414 | 1200 s gives `[(0,1200)]`; 5400 s gives three 1800 s chunks at 0, 1800 and 3600 |
| Video.FormatFields | src/video.rs:360-365 | the timestamp splits on ':' into three fields: zero-padded hours, then minutes and seconds each two digits and below 60; below 100 h it is 8 characters |
| Video.ParseFormat | src/video.rs:360-379 | parsing a formatted timestamp gives back the same number of seconds |
| Video.ParseFields | src/video.rs:368-379 | three colon-free numeric fields parse to h*3600+m*60+s, with no range check on m or s |
| Video.ParseNeedsTwoColons | src/video.rs:369-371 | any text without exactly two ':' is rejected with "Invalid timestamp format: " and the text |
| Video.FormatExamples | src/video.rs:416-420 | 3661 gives "01:01:01" and 0 gives "00:00:00" |
| Video.ParseExamples | src/video.rs:422-426 | "01:01:01" parses to 3661 and "00:00:00" to 0 |
| Video.ValidateExtends | src/video.rs:382-384 | an accepted URL stays accepted with any text before or after it, since the check is a substring test |
| Video.ValidateAcceptsWatch | src/video.rs:429-432 | a youtube.com/watch URL is accepted |
| Video.ValidateAcceptsShort | src/video.rs:429-433 | a youtu.be/ URL is accepted |
| Video.ValidateRejectsVimeo | src/video.rs:429-434 | a vimeo URL is rejected |
| KeyPool.ProbesFrom | src/ai/google.rs:193-211 | the scan from the cursor finds the first enabled slot after the failed probes, or reports that every slot is disabled |
| KeyPool.ActiveIndex | src/ai/google.rs:188-213 | None iff no key is enabled (this includes an empty list); otherwise an enabled index |
| KeyPool.ActiveIsFirstFromCursor | src/ai/google.rs:193-211 | the chosen key is at (cursor+k) mod n for the smallest k whose slot is enabled |
| KeyPool.ActiveRoundRobin | src/ai/google.rs:193-211 | with every key enabled, the chosen key is cursor mod n |
| KeyPool.SlotCovers | src/ai/google.rs:193-211 | every index is probed at some step k below n |
| KeyPool.Rotated | src/ai/google.rs:216-218 | rotation advances the cursor by exactly one and keeps the keys |
| KeyPool.FindValue | src/ai/google.rs:221-228 | finds the first key holding the value, or reports that none does |
| KeyPool.DisabledEffect | src/ai/google.rs:221-230 | disabling clears only the first key with that value, keeps every name, value and other flag, and rotates once even when nothing matches |
| KeyPool.DisabledHitsKey | src/ai/google.rs:221-228 | with distinct values, disabling a key's value disables that key |
| KeyPool.ApplyWeaker | src/ai/google.rs:216-230 | along any sequence of rotations and disables, flags only go from true to false and the cursor never decreases |
| KeyPool.DisabledNeverChosen | src/ai/google.rs:205 | a disabled key is never returned again, whatever operations follow |
| KeyPool.CountEnabledZero | src/ai/google.rs:188-213 | no key is enabled iff the enabled count is zero |
| KeyPool.DisableChosenCount | src/ai/google.rs:221-230 | disabling an enabled key with a distinct value lowers the enabled count by one and keeps the values distinct |
| KeyPool.NewPool | src/ai/google.rs:160-184 | a new pool holds the configured keys in order, all enabled, with cursor 0 |
| KeyPool.KeyRing.constructor | src/ai/google.rs:160-184 | the new ring is the new pool of the configured keys |
| KeyPool.KeyRing.GetActiveKey | src/ai/google.rs:188-213 | the scanning loop returns exactly `ActiveIndex` of the current state and changes nothing |
| KeyPool.KeyRing.RotateKey | src/ai/google.rs:216-218 | the new state is the rotated old state |
| KeyPool.KeyRing.DisableKey | src/ai/google.rs:221-230 | the new state is the old state with the first matching key disabled, rotated once |
| FileApi.WaitForFileActive | src/ai/google.rs:364-395 | at most 60 checks; every check before the last was pending; Ok only when the last check said "ACTIVE", with that uri; the flag selects whether "FAILED" stops the wait |
| FileApi.PollTimesOut | src/gemini.rs:319-339 | if all 60 checks are pending, the wait ends with "File processing timed out" |
| FileApi.PollActive | src/gemini.rs:319-339 | an Ok result names the uri of the first "ACTIVE" check, and every check before it was pending |
| FileApi.PollOnlyFirstChecks | src/gemini.rs:319 | only the first 60 replies affect the result |
| Moments.StripFencesShape | src/ai/google.rs:508-513 | the stripped text is trimmed and no longer than the reply |
| Moments.StripJsonFence | src/ai/google.rs:508-513 | a trimmed body wrapped as "```json", newline, body, newline, "```" comes back unchanged |
| Moments.StripUnfenced | src/ai/google.rs:508-513 | text that neither starts nor ends with a fence is only trimmed |
| Moments.RebasedKeeps | src/ai/google.rs:520-544 | rebasing keeps the number of moments, every category, description and phrase, and every dialogue length; with offset 0 nothing changes |
| Moments.RebasedTimes | src/ai/google.rs:520-544 | with a positive offset, every start/end time and every dialogue start/end is rebased |
| Moments.RebaseFormatted | src/ai/google.rs:522-529 | rebasing a formatted time t gives the formatted time t+offset |
| Moments.RebaseUnparsable | src/ai/google.rs:522-529 | an unparsable time counts as 0, so it becomes the formatted offset |
| Rebasing.RebaseReadsBack | src/ai/google.rs:522-529 | a rebased time that fits in a u64 parses back to its old seconds plus the offset |
| Rebasing.RebaseBySeconds | src/ai/google.rs:522-529 | rebasing depends only on the seconds the time parses to plus the offset |
| Rebasing.RebaseCompose | src/ai/google.rs:522-529 | rebasing a time by a and then by b equals rebasing it by a+b, when t+a fits in a u64 |
| Rebasing.RebaseMomentCompose | src/ai/google.rs:522-541 | rebasing a moment (its times and every dialogue time) by a then b equals rebasing it by a+b |
| Rebasing.RebasedComposePositive | src/ai/google.rs:520-544 | for positive offsets a and b, rebasing a chunk's moments twice equals rebasing them once by a+b |
| Rebasing.RebasedCompose | src/ai/google.rs:520-544 | for all offsets, including the skipped offset 0, rebasing twice equals rebasing once by the sum |
| Moments.RebaseInPlace | src/gemini.rs:489-524 | the in-place loop over moments computes `Rebased` |
| Google.AttemptResultMeans | src/ai/google.rs:247-276 | an attempt yields moments iff its upload succeeded and the analysis returned those moments |
| Google.QuotaFailureIsQuotaText | src/ai/google.rs:279-283 | an analysis error message contains "quota", "429" or "RESOURCE_EXHAUSTED" iff the error is an API error whose text has one of them; network, parse and empty-reply errors never match |
| Google.CodeIsQuota | src/ai/google.rs:487-494 | an API error with code 429 produces a quota message |
| Google.StatusIsQuota | src/ai/google.rs:487-494 | an API error with status RESOURCE_EXHAUSTED produces a quota message |
| Google.MessageIsQuota | src/ai/google.rs:487-494 | an API error whose message contains "quota" produces a quota message |
| Google.LacksMarkers | src/ai/google.rs:279-283 | a text containing none of 'q', '4', 'R' never passes the quota test |
| Google.CallFailedIsNotQuota | src/ai/google.rs:480 | a failed request is not a quota error |
| Google.ReplyUnparsableIsNotQuota | src/ai/google.rs:485 | an unparsable reply is not a quota error |
| Google.NoResponseIsNotQuota | src/ai/google.rs:501 | "No response from Gemini" is not a quota error |
| Google.MomentsUnparsableIsNotQuota | src/ai/google.rs:515-516 | an unparsable moments JSON is not a quota error |
| Google.AfterAttemptWeaker | src/ai/google.rs:278-294 | a failed attempt only disables or rotates |
| Google.ChunkStep | src/ai/google.rs:236-298 | with an active key, a successful attempt returns its moments after one rotation; a failed one disables (quota) or rotates, then retries |
| Google.ChunkErrOnlyWhenExhausted | src/ai/google.rs:245-249 | the retry loop returns Err only with "No active API keys available" and only when every key is disabled |
| Google.ChunkOkFromLastAttempt | src/ai/google.rs:270-276 | an Ok result is the moments of the last attempt used |
| Google.ChunkKeysMonotone | src/ai/google.rs:236-298 | the loop only weakens the pool, and every key it used was enabled at the start |
| Google.QuotaExhaustsPool | src/ai/google.rs:278-296 | with distinct keys and quota failures on every attempt, each enabled key is used once and the loop ends with Err |
| Google.AttemptDecided | src/ai/google.rs:270-294 | after an upload succeeds, the analysis result decides the attempt, and an analysis error is quota iff its message says so |
| Google.UploadFailureDecides | src/ai/google.rs:255-263 | a failed upload yields no moments and is never treated as quota |
| Google.GoogleClient.constructor | src/ai/google.rs:160-184 | the client holds a fresh pool of the keys and picks the flash or pro model |
| Google.GoogleClient.TryKey | src/ai/google.rs:247-294 | one attempt gives `AttemptResult`; the ring rotates once on success, otherwise it changes as `AfterAttempt` says |
| Google.GoogleClient.ProcessChunk | src/ai/google.rs:236-298 | the retry loop's outcome, final pool and keys used are exactly `ChunkRun` of the replies |
| Gemini.UploadEffect | src/gemini.rs:234-305 | a successful upload needed an active key and an uploaded reply, waited for an "ACTIVE" check and rotated once; a failed one leaves the pool alone |
| Gemini.AnalyzeStep | src/gemini.rs:412-549 | one reply either succeeds, with one rotation; or stops with an error and leaves the pool; or disables or rotates and retries |
| Gemini.AnalyzeErrors | src/gemini.rs:412-549 | an Err means every key is disabled, or the last reply used stopped the loop with that error |
| Gemini.AnalyzeErrorMessage | src/gemini.rs:414-417 | an Err not caused by a stopping reply is the no-keys error |
| Gemini.AnalyzeOkFromLastReply | src/gemini.rs:489-526 | an Ok result is the moments of the last reply used |
| Gemini.AnalyzeKeysMonotone | src/gemini.rs:412-549 | the loop only weakens the pool, and every key it used was enabled at the start |
| Gemini.OtherApiErrorStops | src/gemini.rs:459-462 | an API error that is not a limit returns Err at once, with the pool unchanged and one key used |
| Gemini.LimitsExhaustPool | src/gemini.rs:444-458 | limit errors on every reply, with distinct keys, use each enabled key once and end with the no-keys Err |
| Gemini.GeminiClient.constructor | src/gemini.rs:160-184 | the client holds a fresh pool of the keys and picks the flash or pro model |
| Gemini.GeminiClient.WaitForFileActive | src/gemini.rs:307-340 | no active key gives an Err; otherwise the result is the poll that does not stop on "FAILED" |
| Gemini.GeminiClient.UploadVideo | src/gemini.rs:234-305 | the result and the new pool are `UploadRun` of the replies |
| Gemini.GeminiClient.HandleReply | src/gemini.rs:427-547 | the reply's verdict is computed; the pool stays on a stop, otherwise it is disabled or rotated as the verdict says |
| Gemini.GeminiClient.AnalyzeVideo | src/gemini.rs:343-550 | the retry loop's outcome, final pool and keys used are exactly `AnalyzeRun` of the replies |
| OpenRouter.MaxAttempts | src/ai/openrouter.rs:155-156 | the attempt bound is max(n, 3) |
| OpenRouter.CurrentIndex | src/ai/openrouter.rs:74-85 | the key index is below n, and equals the cursor when the cursor is in range |
| OpenRouter.RotatedCursorRange | src/ai/openrouter.rs:87-92 | with at most one key the cursor stays; otherwise it moves to (cursor+1) mod n, so it stays below n |
| OpenRouter.ChatBounds | src/ai/openrouter.rs:158-234 | at most max(n,3) requests are sent, each to an index below n, and the cursor stays in range |
| OpenRouter.ChatExhausted | src/ai/openrouter.rs:233-238 | the loop runs out of attempts iff every reply was a retrying failure, and then it used all of them |
| OpenRouter.NoKeysEnds | src/ai/openrouter.rs:74-76 | with no keys the loop ends at once with no request |
| OpenRouter.SuccessEnds | src/ai/openrouter.rs:176-213 | a success status ends the loop with that one key used |
| OpenRouter.FailureKeys | src/ai/openrouter.rs:214-231 | a failed request retries; only statuses 429, 401 and 402 and network errors rotate the key |
| OpenRouter.AnsweredIsOk | src/ai/openrouter.rs:176-213 | a decoded success is always Ok; with no choices, no content, or unparsable JSON, the list is empty |
| OpenRouter.BodyMomentsParsed | src/ai/openrouter.rs:180-205 | parsed content gives the converted raw moments |
| OpenRouter.ConvertAllKeeps | src/ai/openrouter.rs:189-201 | each raw moment keeps its order, category and description, gets an empty dialogue, and has its times offset and formatted |
| OpenRouter.OpenRouterClient.constructor | src/ai/openrouter.rs:60-72 | the client keeps the key values in order with cursor 0 |
| OpenRouter.OpenRouterClient.GetCurrentKey | src/ai/openrouter.rs:74-85 | Err iff there are no keys; otherwise the in-range index, with an out-of-range cursor reset to 0 |
| OpenRouter.OpenRouterClient.RotateKey | src/ai/openrouter.rs:87-92 | the cursor moves as `RotatedCursor` |
| OpenRouter.OpenRouterClient.RotateAfter | src/ai/openrouter.rs:214-231 | after a failed request the cursor rotates unless the status is one that keeps the key |
| OpenRouter.OpenRouterClient.ProcessChunk | src/ai/openrouter.rs:95-239 | a file read error is returned as is; otherwise the result, the cursor and the keys used follow `ChatRunOf` |
| OpenRouter.OpenRouterClient.RequestLoop | src/ai/openrouter.rs:156-238 | the attempt loop's result, cursor and keys used are `ChatFrom` from attempt 0 |
| Pipeline.ResumeSession | src/main.rs:41-67 | Err iff temp.json cannot be read; a session is adopted iff the file exists, parses and the user agrees |
| Pipeline.StartingPoint | src/main.rs:69-107 | a fresh run starts with no moments, the given URL and the given temp dir; a resumed run starts from the saved session |
| Pipeline.KeptSound | src/main.rs:162-172 | every rebuilt chunk is a planned chunk whose file exists, starting where the planner says |
| Pipeline.KeptComplete | src/main.rs:162-172 | every planned chunk whose file exists is rebuilt |
| Pipeline.KeptNone | src/main.rs:173-179 | with no chunk file present, nothing is rebuilt |
| Pipeline.ChunksForChoice | src/main.rs:155-187 | an empty chunks dir, or one holding none of the planned files, is re-split; otherwise the existing files are used |
| Pipeline.RebuildChunks | src/main.rs:162-172 | the rebuild loop computes `Kept` over the whole plan |
| Pipeline.SelectChunks | src/main.rs:155-187 | the chunk choice computes `ChunksFor` |
| Pipeline.GatheredPrefix | src/main.rs:194-213 | moments only accumulate: the moments after m chunks are a prefix of those after n chunks |
| Pipeline.GatheredFromAnalysed | src/main.rs:214-221 | every gathered moment comes from a successfully analysed chunk |
| Pipeline.NothingAnalysed | src/main.rs:214-221 | failed chunks add no moments and cause no saves |
| Pipeline.SavesCount | src/main.rs:210-212 | there is exactly one save per successful chunk |
| Pipeline.SavesKeepSession | src/main.rs:359-368 | every save keeps the URL and temp dir unchanged |
| Pipeline.SavesArePrefixes | src/main.rs:210-212 | every save holds a prefix of the final moment list |
| Pipeline.SavesLastIsGathered | src/main.rs:210-212 | the last save holds every gathered moment |
| Pipeline.SessionFile.constructor | src/main.rs:359-368 | no session has been written yet |
| Pipeline.SessionFile.Save | src/main.rs:359-368 | a save appends the state with that URL, those moments and that temp dir |
| Pipeline.SessionFile.AnalyzeChunks | src/main.rs:190-224 | the loop returns the moments gathered in chunk order, and saves once after each successful chunk |
| Pipeline.SessionFile.RunSession | src/main.rs:130-330 | a non-empty resumed list skips analysis; saves come first, during the loop and at the end; then the listing; clips are named only when there are moments and the user agrees |
| Pipeline.Entries | src/main.rs:236-245 | entry i is the numbered entry of moment i, numbered from `first` |
| Pipeline.ListingAt | src/main.rs:233-246 | the listing is the header, then the entries before moment i, moment i's entry numbered i+1, then the rest |
| Pipeline.ListingSnoc | src/main.rs:236-245 | each loop step appends one numbered entry |
| Pipeline.BuildListing | src/main.rs:233-246 | the push_str loop computes `Listing` |
| Pipeline.SlugHasNoSpace | src/main.rs:310 | the category slug has no space |
| Pipeline.ClipPathsDistinct | src/main.rs:306-311 | clips with different indices get different file names, whatever their categories |
| Pipeline.NameClips | src/main.rs:303-325 | the naming loop computes `ClipPaths` |
| Exporter.ResolveSize | src/exporter.rs:84-103 | pixels stay as given; "full", any keyword without a trailing '%', or an unparsable percentage resolve to the reference |
| Exporter.ResolvePosition | src/exporter.rs:43-62 | pixels stay as given; "center" centers; any other keyword without a trailing '%', or an unparsable percentage, gives 0 |
| Exporter.CenterOffset | src/exporter.rs:48-49 | the element is centered: the gaps on both sides differ by at most one, and when the element fits it lies inside the container |
| Exporter.SizeIgnoresCase | src/exporter.rs:88 | size keywords are compared case-insensitively |
| Exporter.PositionIgnoresCase | src/exporter.rs:47 | position keywords are compared case-insensitively |
| Exporter.PercentSizeWithin | src/exporter.rs:91-96 | a percentage between 0 and 100 never exceeds the reference |
| Exporter.PercentWithin | src/exporter.rs:93-94 | a percentage between 0 and 100 of the reference lies between 0 and the reference |
| Exporter.SizeExamples | src/exporter.rs:1087-1091 | 500 px stays 500; "full" of 1080 is 1080; "50%" of 1000 is 500 |
| Exporter.PositionExamples | src/exporter.rs:1094-1100 | 100 px stays 100; "center" of 200 in 1000 is 400 |
| Exporter.FullIsReference | src/exporter.rs:89-90 | "full" resolves to the reference |
| Exporter.CenterKeyword | src/exporter.rs:48-49 | "center" resolves to the centered offset |
| Exporter.UnspecifiedIsDefault | src/exporter.rs:149-151 | a crop is unspecified iff all four bounds are None |
| Exporter.DefaultPlano | src/exporter.rs:315-353 | three layers: a clip, a blur shader of intensity 20, and a clip |
| Exporter.DefaultPlanoBoxes | src/exporter.rs:315-353 | the background layers fill 1080x1920; the main clip is 1080x1200, centered at y 360 |
| Exporter.NoCommentsKept | src/exporter.rs:281-311 | input with no "//" comes back unchanged |
| Exporter.LiteralKept | src/exporter.rs:286-296 | a string literal, "//" included, is copied verbatim, and its closing quote ends the string |
| Exporter.EscapedQuoteKept | src/exporter.rs:290-296 | a quote after an odd number of backslashes does not end the string |
| Exporter.CommentDropped | src/exporter.rs:297-305 | outside strings, "//" up to the next newline is dropped and the newline is kept |
| Exporter.CommentAtEnd | src/exporter.rs:297-305 | a final comment without a newline is dropped |
| Exporter.UncommentedExtends | src/exporter.rs:281-311 | output is only appended to, never longer than the input |
| Exporter.RemoveJsComments | src/exporter.rs:281-311 | the scanner loop computes `RemoveComments` |
| Config.NonEmptyConcat | src/config.rs:62-66 | dropping empty pieces keeps the order of the rest |
| Config.NoKeysIffBlank | src/config.rs:62-70 | no key is found iff every comma-separated piece is blank after trimming |
| Config.ParsedAreKeys | src/config.rs:62-66 | every parsed key is non-empty, trimmed and free of commas |
| Config.KeysRoundTrip | src/config.rs:62-66 | typing well-formed keys joined by ',' gives the same keys back |
| Config.NewConfig | src/config.rs:62-83 | no key gives "At least one API key is required."; otherwise the keys and folder as typed, extraction and cookies off, and "./cookies.json" |
| Config.LoadStored | src/config.rs:33-53 | a stored file is accepted iff it parses and names a key; otherwise the format-changed or no-keys error |
| Config.LoadOrCreate | src/config.rs:31-91 | the file is loaded when present, its read error is returned, and a missing file means typing a new configuration |
| Config.ConfigHasKeys | src/config.rs:46-70 | every configuration the program goes on with has at least one key, and typed keys are well formed |
| Tui.Initial | src/tui.rs:123-139 | the app starts on the setup screen with no logs, no moments and an empty input |
| Tui.LogKeepsNewest | src/tui.rs:153-164 | the log holds at most 100 entries, namely the newest ones |
| Tui.InsertAt | src/tui.rs:175-178 | the character goes in at the index and the rest shifts right |
| Tui.RemoveAt | src/tui.rs:179-189 | the character at the index goes and the rest shifts left |
| Tui.UrlKey | src/tui.rs:168-202 | every key on the URL screen keeps the cursor within the input |
| Tui.KeyStep | src/tui.rs:167-238 | key handling keeps the cursor in range and never changes the screen, logs or moments |
| Tui.TypedCharInserted | src/tui.rs:175-178 | a typed character goes in at the cursor and the cursor moves one right |
| Tui.BackspaceUndoesChar | src/tui.rs:175-184 | backspace right after typing restores the state |
| Tui.LeftDeleteIsBackspace | src/tui.rs:179-194 | Left then Delete equals Backspace |
| Tui.RightLeftReturns | src/tui.rs:190-199 | Right then Left returns to the same state when not at the end |
| Tui.EnterConfirmsNonBlank | src/tui.rs:170-174 | Enter confirms only when the trimmed input is non-empty, and never edits |
| Tui.ConfirmKeys | src/tui.rs:205-219 | on confirm screens, y/Y/Enter give yes, n/N give no, Esc quits, and other keys do nothing |
| Tui.OnlyEditorEdits | src/tui.rs:204-238 | no screen other than the URL box changes the input or the cursor |
| Tui.MessageStep | src/tui.rs:241-275 | message handling keeps the app state valid |
| Tui.RequestsReset | src/tui.rs:258-270 | a URL request opens an empty editor with cursor 0; the confirm requests clear the previous answer |
| Tui.MomentsInArrivalOrder | src/tui.rs:249-251 | found moments are appended in the order they arrive |
| Tui.LogMessagePushes | src/tui.rs:244 | a log message appends its entry, dropping the oldest when 100 are held |
| Tui.App.constructor | src/tui.rs:123-139 | the new app is in the initial state with the given output dir |
| Tui.App.Log | src/tui.rs:153-164 | the new log is the pushed and capped old log; nothing else changes |
| Tui.App.HandleKey | src/tui.rs:167-238 | the new state is `KeyStep` of the old |
| Tui.App.EditUrl | src/tui.rs:168-202 | the new state is `UrlKey` of the old |
| Tui.App.HandleMessage | src/tui.rs:241-275 | the new state is `MessageStep` of the old |
| Tui.WideCharThenInsertPanics | src/tui.rs:175-178 | the byte-indexed insert works once after a two-byte character, then hits a non-boundary index |
| Tui.WideCharRightBackspacePanics | src/tui.rs:175-199 | after typing 'é' on an empty line, the as-written Delete panics, and Right moves the cursor to byte 2 after which Backspace panics; the corrected editor deletes the character |
| Tui.AsciiByteLen | src/tui.rs:186 | the byte length of ASCII text is its character count |
| Tui.AsciiKeysAgree | src/tui.rs:168-202 | on ASCII input every key of the as-written byte-indexed editor gives the same state as the character-indexed `KeyStep`, and never panics |
| Whisper.AssTimestampSameCentisecond | src/whisper.rs:211-222 | two times format alike iff they fall in the same centisecond |
| Whisper.LayoutParts | src/whisper.rs:211-222 | the timestamp is unpadded hours, ':', two-digit minutes, ':', two-digit seconds, '.', two-digit centiseconds |
| Whisper.AssTimestampLayout | src/whisper.rs:211-222 | the timestamp depends only on the whole centiseconds, (ms mod 1000)/10 truncated |
| Whisper.AssTimestampZero | src/whisper.rs:290-291 | 0 gives "0:00:00.00" |
| Whisper.AssTimestampHundredths | src/whisper.rs:290-292 | 1500 gives "0:00:01.50" |
| Whisper.AssTimestampSeconds | src/whisper.rs:323-324 | 2000 gives "0:00:02.00" |
| Whisper.AssTimestampMinutes | src/whisper.rs:290-293 | 61000 gives "0:01:01.00" |
| Whisper.AssTimestampHours | src/whisper.rs:290-294 | 3661500 gives "1:01:01.50" |
| Whisper.EscapeBreaks | src/whisper.rs:196 | the escaped text has no newline |
| Whisper.GenerateAssContent | src/whisper.rs:168-202 | the push_str loop builds `AssDocument` of the segments |
| Whisper.EventsSnoc | src/whisper.rs:193-200 | each loop step appends one dialogue line |
| Whisper.DialogueIsOneLine | src/whisper.rs:198-200 | each dialogue line has one line break, at its "\r\n" end |
| Whisper.DocumentLineCount | src/whisper.rs:168-202 | the document has the header's lines plus one per segment |
| Whisper.DialogueShowsSegment | src/whisper.rs:193-200 | a dialogue line shows the formatted start and end and the escaped text |
| Whisper.DocumentHasEverySegment | src/whisper.rs:193-200 | every segment's dialogue line is in the document |
| Whisper.DocumentSections | src/whisper.rs:172-191 | the document starts with [Script Info], sets PlayResX 1080 and PlayResY 1920, and [V4+ Styles] then [Events] follow in that order |
| Whisper.Step | src/whisper.rs:136-157 | a segment whose getters fail gives that getter's error; otherwise its text is kept iff non-blank after trimming |
| Whisper.CollectSegments | src/whisper.rs:135-158 | the segment loop computes `Collect` of the getter results |
| Whisper.CollectOkIff | src/whisper.rs:135-158 | the loop succeeds iff every segment's getters succeed |
| Whisper.FirstFailureReported | src/whisper.rs:136-148 | the first failing segment's error is returned |
| Whisper.CollectAppend | src/whisper.rs:135-158 | collecting two runs of segments gives the two results in order |
| Whisper.CollectMembers | src/whisper.rs:150-157 | the result holds exactly the converted segments with text, with times times 10 |
| Whisper.CollectTextsSpoken | src/whisper.rs:150-151 | every kept text is non-empty and trimmed |
| Whisper.CollectKeepsSpoken | src/whisper.rs:135-158 | when every segment has text, all are kept, in order |
| FaceTracking.LinesOfTerminated | src/facetracking.rs:152 | newline-terminated lines without '\r' are split back into those lines |
| FaceTracking.AfterKey | src/facetracking.rs:153-154 | None iff the line has no "crop="; otherwise the text after the first occurrence |
| FaceTracking.ParseFields | src/facetracking.rs:155-165 | a crop needs at least four fields, each within u32 |
| FaceTracking.CropOf | src/facetracking.rs:153-165 | a line yields a crop only if it contains "crop=", with u32 fields |
| FaceTracking.ParseCropdetectOutput | src/facetracking.rs:149-171 | the line loop returns `LastCrop` of stderr's lines |
| FaceTracking.NoCropIffNoneWellFormed | src/facetracking.rs:149-171 | None iff no line holds a well-formed crop |
| FaceTracking.LastWellFormedWins | src/facetracking.rs:149-171 | the result is the crop of a line after which no line is well formed |
| FaceTracking.MalformedLineSkipped | src/facetracking.rs:156-166 | a malformed line does not clear an earlier crop |
| FaceTracking.WellFormedLineReplaces | src/facetracking.rs:163 | a well-formed line replaces any earlier crop |
| FaceTracking.ParseRendered | src/facetracking.rs:155-162 | "w:h:x:y" parses back to the fields (w, h, x, y), in that order |
| FaceTracking.CropOfRenderedLine | src/facetracking.rs:153-165 | a line of some text then "crop=w:h:x:y" yields that crop |
| FaceTracking.LeadingSpaceRejected | src/facetracking.rs:157-160 | only the fourth field is trimmed, so a space before any other field rejects the line |
| FaceTracking.FourthFieldTrimmed | src/facetracking.rs:161 | whitespace around the fourth field is accepted |
| FaceTracking.ExtraFieldsIgnored | src/facetracking.rs:156-164 | fields after the fourth are ignored |
| FaceTracking.LaterCropWins | src/facetracking.rs:316-328 | of two crop lines, the later one wins |
| FaceTracking.Confident | src/facetracking.rs:212 | a region is kept iff its confidence is above 0.5 |
| FaceTracking.DetectConsistentRegion | src/facetracking.rs:206-236 | fewer than three regions is never consistent, and neither is fewer than two confident ones |
| FaceTracking.UnconfidentSampleIgnored | src/facetracking.rs:212 | adding a low-confidence region does not change the verdict |
| FaceTracking.SteadyRegionDetected | src/facetracking.rs:219-235 | confident regions that all share one position are detected |
| FaceTracking.CloseSamplesDetected | src/facetracking.rs:337-365 | three confident regions within 0.01 of each other are detected |

## Findings

| source | as written | input that shows it | evidently intended | confidence | as-written member | corrected member |
|---|---|---|---|---|---|---|
| src/exporter.rs:48 | `(container_size - element_size) / 2` in u32 wraps when the element is larger than the container, and `as i32` then gives a huge positive offset | container 100, element 200: 2147483598, far outside the container | the signed centre offset, here -50 | not executed | Exporter.CenterAsWrittenWraps | Exporter.CenterOffset |
| src/tui.rs:175-178 | the cursor counts characters but `String::insert` takes a byte offset | type 'é' (two bytes; cursor becomes 1), then type any character: byte 1 is not a character boundary, so the insert panics | insert at the cursor's character position | not executed | Tui.WideCharThenInsertPanics | Tui.TypedCharInserted |
| src/tui.rs:185-199 | Delete and Right bound the character cursor by the byte length `input.len()`, and `String::remove` takes a byte offset | type 'é' on an empty line, then Delete (byte 1 is not a boundary: panic), or Right (cursor 2, past the one character) then Backspace (byte 1 again: panic) | bound by the character count and remove the character at the cursor | not executed | Tui.WideCharRightBackspacePanics | Tui.KeyStep |

The corrected members are the ones the rest of the model uses: `ResolvePosition`
calls `CenterOffset`, and `KeyStep` edits the input by character index.
`Exporter.CenterAsWrittenWhenFits` proves that the as-written formula and the
corrected one agree whenever the element fits. `Tui.UrlKeyAsWritten` models the URL
editor with the byte offsets and byte-length bounds of the code (`None` where
the code panics), and `Tui.AsciiKeysAgree` proves that it agrees with the
character-indexed `KeyStep` on every key when the input is ASCII.

## Left out

- HTTP traffic (uploads, generateContent, OpenRouter chat, status polls) is not modelled; each reply is an input value.
- The base64 encoding of the video for OpenRouter, and Google Drive, are foreign libraries; the file read that precedes the encoding is an input error.
- JSON parsing and serialisation (serde) are parameters: `parse` functions from text to an optional value.
- Concurrency is not modelled. Atomic flags and the atomic cursor are plain fields, and cancellation is left out.
- KeyPool.Rotated: the cursor is an unbounded natural number, so the wrap of the 64-bit atomic counter after 2^64 rotations is not modelled.
- Video.ParseTimestamp: the u64 overflow of h*3600+m*60+s is not modelled; each field is bounded by u64 but the sum is unbounded. A leading '+' on a field is accepted, as Rust's `str::parse` does.
- Exporter.ResolvePosition: for "center" with an element wider than the container (container 100, element 200) it returns the corrected `CenterOffset` (-50), not the wrapped u32 value 2147483598 (or the debug-build overflow panic) of src/exporter.rs:48; `Exporter.CenterAsWritten` models that behaviour.
- Tui.UrlKey, Tui.KeyStep: the cursor counts characters and edits go in at character positions; the code bounds Delete and Right by the byte length and inserts and removes at byte offsets, so non-ASCII input can panic. `Tui.UrlKeyAsWritten` models the code as written and `Tui.AsciiKeysAgree` shows the two agree on ASCII input.
- Google.DebugStatus: Rust's `{:?}` escapes quotes, backslashes and control characters inside the status text; the model inserts the text unescaped between quotes.
- Whisper.FormatAssTimestamp: the input is a natural number; negative i64 times (which Rust's truncating `/` and `%` would print oddly) and the i64 overflow of the ×10 conversion are not modelled.
- Google.GoogleClient.ProcessChunk and Gemini.GeminiClient.AnalyzeVideo: the source loops are unbounded; the model receives a finite sequence of replies and reports `Retrying` when they run out.
- Writes to disk (temp.json, moments.txt, settings.json, the .ass file) are not modelled; the session file is a list of states written in order. `save_session` is a plain write, and no atomicity is claimed.
- Floating point: f32 percentages in `resolve`, the OpenRouter f64 times and their "{:.2}" formatting, and the face-region variance use exact reals or an abstract formatter. f32 rounding is not modelled.
- Exporter.Truncate, Exporter.SaturateI32, Exporter.SaturateU32: these stand for Rust's saturating float-to-int `as` casts on exact reals.
- Unicode case folding: `to_lowercase` is modelled for ASCII letters only.
- The interactive prompts (dialoguer `Input`/`Confirm`) are inputs; their own I/O errors are not modelled.
- Rendering, uptime, the dashboard and the setup wizard are not part of this model.
- `load_plano`, `save_plano`, `build_ffmpeg_filter`, preview and export are not part of this model; they read files or drive ffmpeg.
- Whisper model loading, `full()`, sample conversion, model download and `extract_audio_wav` are not part of this model; each segment's getter results are inputs.
- In facetracking.rs, frame analysis, `calculate_dynamic_crop` and `get_video_resolution` run ffmpeg and are not part of this model; `detect_consistent_region` is modelled through its variance test on exact reals.
- External processes (yt-dlp, ffmpeg, ffprobe) for downloading, splitting and extracting are not modelled; split results and file existence are inputs.
- Security, compression, shorts transformation, build.rs and the provider enum in src/ai/mod.rs are not part of this model.
- main.rs calls `GeminiClient::new` with one argument and `extract_clip` with four, which do not match the definitions; the model follows the definitions and does not model the call signatures.
