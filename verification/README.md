# Market Genome: a Dafny model of the job pipeline, the chat sessions and the brand assistant

Market Genome is a FastAPI service. It takes a brand name, website or social
handle and runs a background analysis that produces a "Marketing Genome
Report". The report is a PDF that the service mails to the user. The service
also hosts chat sessions with a per-brand AI assistant, which can turn a
conversation into a new report job.

This project models the logic of that service around its AI, HTTP, PDF and
SMTP calls:

- `Registry` (`registry.dfy`): Python's insertion-ordered `dict` as a map plus
  its key order. It covers `d[k] = v`, `del d[k]` and `len(d)`.
- `Models` (`models.dfy`): the `JobStatus` enumeration, its string values and
  the defaults of `JobStatusResponse`.
- `Engine` (`engine.dfy`): the brand-input helpers of `MarketGenomeEngine`:
  - input-type detection;
  - website guessing and URL normalisation;
  - the bounded website summary;
  - the five-line brand context;
  - the branches of `collect_brand_data`;
  - the API-key check of the constructor.
- `Pipeline` (`pipeline.dfy`): the background run `analyze_brand_genome`.
  - A run is seven stages in a fixed order.
  - Each stage is announced by a progress message.
  - The first failing stage aborts the run.
  - The run produces the final job record and an event log of what became
    observable, in order.
- `Intent` (`intent.dfy`): the chat-message classifier `_detect_action_type`
  and the `needs_report` flag.
- `InstagramPosts` (`posts.dfy`): the line parser `_parse_instagram_posts`,
  including its crash case, and the error wrapper of
  `generate_instagram_posts`.
- `BrandAssistant` (`assistant.dfy`): the assistant of one session:
  - the conversation history;
  - one `chat` turn;
  - the enhanced image prompt;
  - `clear_conversation`.
- `Api` (`api.dfy`): the HTTP endpoints over the job registry (`genome_jobs`)
  and the session registry (`chat_sessions`). Each endpoint is a method whose
  `HTTPException`s become `Err(HttpError(status, detail))`.
- `Strings` and `Wrappers`: shared helpers for Python's string methods
  (`lower`, `strip`, `split`, `join`, `startswith`, `in`) and the
  `Option`/`Result` types.

Everything the code calls out to is a parameter:

- the AI service (`Backend`, and the stage functions of `Env`);
- the page fetcher;
- the PDF renderer and the mailer;
- the configured API key;
- the current time;
- fresh uuids;
- the file system check of the download endpoint;
- the outcome of exporting a conversation.

## Model

| member | source | states |
|---|---|---|
| Models.Wire | models.py:8-11 | The string value of each member: "pending", "processing", "completed", "failed". `ParseWire`, `WireRoundTrip` and `WireInjective` state that it is a bijection onto those four strings. |
| Models.ParseWire | models.py:6-11 | Parsing a string value gives back the member whose value it is, or nothing where `JobStatus(value)` would raise. |
| Models.WireRoundTrip | models.py:6-11 | Every status parses back from its own string value. |
| Models.WireInjective | models.py:8-11 | Two statuses with the same string value are the same status, so the four values are pairwise distinct. |
| Models.JobStatusResponseDefaults | models.py:28-35 | A response built from the id and status alone has no message, no image or video link, and `email_sent` false. |
| Registry.Put | market_genome_main.py:36-39 | Assigning a key updates only that entry. A new key goes last in iteration order, an existing key keeps its place, and the count grows exactly when the key was new. |
| Registry.Remove | market_genome_main.py:577 | Deleting a key removes it from the map and exactly that key from the iteration order, which shrinks by one exactly when the key was stored. |
| Registry.WithoutInOrder | market_genome_main.py:577 | Dropping a key from a key sequence keeps every two remaining keys in the order they had. |
| Registry.RemoveKeepsOrder | market_genome_main.py:577 | After `del d[k]` the remaining keys iterate in the order they had before. |
| Registry.OrderLength | market_genome_main.py:318-329 | The number of entries equals the number of keys the iteration visits. |
| Engine.DetectInputType | market_genome_engine.py:350-362 | "website" iff the input starts with "http://", "https://" or "www.". Otherwise a handle starting with "@" is "instagram", "twitter" or "social", in that order of tests, and anything else is "brand_name". The result is "twitter" exactly for a non-website "@" handle that mentions no Instagram but mentions "twitter" or "x.com". The tests are case-sensitive. |
| Engine.HandleIsNotWebsite | market_genome_engine.py:352-360 | An input starting with "@" is classified neither as a website nor as a brand name. |
| Engine.FindBrandWebsite | market_genome_engine.py:412-417 | The guess is "https://www." + the lower-cased name without spaces + ".com". It is never empty and has no space between prefix and suffix. |
| Engine.NormaliseUrl | market_genome_engine.py:367-368 | The requested URL starts with "http". It is the input when that already starts with "http", and "https://" + input otherwise. |
| Engine.NormaliseUrlIdempotent | market_genome_engine.py:367-368 | Normalising twice equals normalising once, and a guessed website is requested unchanged. |
| Engine.ScrapeWebsite | market_genome_engine.py:364-402 | The scraper never raises. A failed fetch gives the `{url, error}` pair. Otherwise it keeps at most five stripped headlines per heading level, `<h1>` first, the text as the first 1000 characters of the first ten stripped paragraphs joined by spaces, and the title and description (empty when absent). |
| Engine.CollectBrandData | market_genome_engine.py:32-80 | Only "auto" triggers detection. A website is scraped and named by its title, or by the raw input when the scrape failed. A social platform keeps the handle with every "@" removed. Every other type keeps the raw input and scrapes a guessed site. The record always has its seven keys, with the input unchanged. |
| Engine.SocialHandleFallsThrough | market_genome_engine.py:57-76 | An auto-detected "social" handle falls through to the brand-name branch: the "@" stays in the name and the website is guessed from the handle. |
| Engine.PrepareBrandContext | market_genome_engine.py:419-431 | The context is empty exactly when there is no website data; otherwise it starts with "Website: " and the URL. |
| Engine.ContextLines | market_genome_engine.py:423-429 | Five lines, the first "Website: " and the URL, the others labelled Title, Description, Headlines and Content in that order. |
| Engine.ContextHasFiveLines | market_genome_engine.py:419-431 | When no field holds a newline, the context splits back into exactly its five lines, each label followed by its value: the title, the description, the headlines joined by ", ", and the first 500 characters of the text. A failed scrape gives the four labels with empty values. |
| Engine.NewEngine | market_genome_engine.py:26-30 | The constructor fails with the missing-key error exactly when no key or an empty key is configured. |
| Pipeline.Execute | market_genome_main.py:153-205 | Each stage receives exactly the outputs of earlier stages that the source passes it: collection gets the input and type, DNA gets the brand data, and so on to the mailer, which gets the email, the input and the report path. The render stage succeeds iff the renderer does on the job id, the brand name and the four results, and its path or error is the renderer's. |
| Pipeline.Record | market_genome_main.py:195-205 | Of all stage outputs, only the report path and link (after rendering) and the delivery result (after mailing) are written to the job. |
| Pipeline.Progress | market_genome_main.py:149-200 | The progress message set just before each of the seven stages. |
| Pipeline.ProgressIdentifiesStage | market_genome_main.py:149-200 | No two stages share a progress message, so the message names the stage about to run. |
| Pipeline.RanRecordsEvents | market_genome_main.py:149-205 | A stage appears among those run exactly when the event log records running it, and a status appears among those set exactly when the log records setting it. |
| Pipeline.RanAppend | market_genome_main.py:149-205 | The stages run and the statuses set by two event logs in a row are those of the first followed by those of the second. |
| Pipeline.AnnouncedAppend | market_genome_main.py:149-205 | Two logs in which every stage follows its own progress message still have that property when joined. |
| Pipeline.AbortEvents | market_genome_main.py:217-229 | The failure handler sets FAILED, then the error message, then sends the failure mail, and runs no stage. |
| Pipeline.AbortSettles | market_genome_main.py:217-229 | A stage that raises is the last one run, and the job ends FAILED with "Error generating genome: " + the error, report fields untouched, and the failure mail last. |
| Pipeline.StepEvents | market_genome_main.py:149-205 | A stage that returns, followed by the rest of the run, gives a log in which the stages from this one on run in order, each right after its progress message. |
| Pipeline.StepSettles | market_genome_main.py:149-229 | A stage that returns does not change how the rest of the run settles the job. |
| Pipeline.RunFrom | market_genome_main.py:149-229 | From stage i on, the stages up to the one reached run in order, each announced, and exactly one status is set. The job ends COMPLETED with the done message, a report path the renderer returned for this job, the report link, the completion time and the delivery result exactly when no stage raised. Otherwise it ends FAILED after the failing stage, with the error message, the report fields as they were and the failure mail last. |
| Pipeline.MissingKeySettles | market_genome_main.py:134-146 | Without an API key the run fails after setting PROCESSING, before any stage. |
| Pipeline.StagesSettle | market_genome_main.py:134-229 | The stages run behind the starting events keep their outcome. |
| Pipeline.Run | market_genome_main.py:117-229 | A run first sets PROCESSING and "Analyzing brand data...", then runs a prefix of the seven stages in the fixed order, each announced. It ends COMPLETED or FAILED as `RunFrom` states, and fails before any stage when the engine has no API key. |
| Pipeline.AllStagesSucceed | market_genome_main.py:195-213 | With a key and no stage raising, the run ends COMPLETED after all seven stages, with a report path the renderer returned for this job, the report link, and `email_sent` equal to the delivery result, whatever that result is. |
| Pipeline.CompletedRun | market_genome_main.py:195-213 | A completed run ran all seven stages and recorded a path the renderer returned for the job, the link and the delivery result. |
| Pipeline.RunSettles | market_genome_main.py:117-229 | Every run ends the job COMPLETED or FAILED. |
| Pipeline.RunCompletes | market_genome_main.py:134-213 | With a key and no stage raising, the run completes. |
| Pipeline.RunFromCompletes | market_genome_main.py:149-213 | With no stage raising, the run from any stage completes. |
| Pipeline.RunFromStops | market_genome_main.py:217-229 | A stage that raises ends the run right after it, with its error. |
| Pipeline.RunFromContinues | market_genome_main.py:149-205 | A stage that returns hands its output to the next stage, and the run's outcome is that of the rest. |
| Pipeline.Advance | market_genome_main.py:149-205 | A stage that returns extends the outputs and the record consistently: the report path (the renderer's answer on the earlier outputs) and link once rendered, the delivery result once mailed. |
| Pipeline.FailedRunLeavesNoReport | market_genome_main.py:195-229 | A fresh job whose run fails never reached the mailer and keeps no report path or link. |
| Pipeline.CompetitorFailureStopsRun | market_genome_main.py:166-229 | A competitor analysis that always raises stops the run after the third stage. The job is FAILED with the error message, and no report path or link is written. |
| Pipeline.StoppedAfterThird | market_genome_main.py:217-229 | A run that failed at the third stage ran exactly collection, DNA and competitors and left the report fields as they were. |
| Pipeline.RunStopsAtCompetitors | market_genome_main.py:153-170 | A competitor analysis that always raises is the stage that ends the run. |
| Pipeline.FirstTwoStages | market_genome_main.py:149-164 | With a DNA extraction that never raises, the run reaches the competitor stage with the outputs of the first two stages. |
| Pipeline.CollectStage | market_genome_main.py:149-156 | Data collection never raises and hands the brand data on. |
| Pipeline.DnaStage | market_genome_main.py:158-162 | A DNA extraction that returns hands its result on. |
| Pipeline.CompetitorStageFails | market_genome_main.py:164-168 | A raising competitor analysis ends the run at the third stage. |
| Intent.DetectionFollowsRuleTable | brand_ai_assistant.py:227-255 | The cascade equals a first-match over the ordered table (image, report, content, competitor, predictive, audience, campaign), with general chat as the default. |
| Intent.DetectionPrecedence | brand_ai_assistant.py:227-255 | A message is classified `a` iff a keyword of `a` occurs in the lower-cased message (or `a` is general chat) and no category checked earlier has one. So image phrases beat every other keyword, and general chat means that no keyword occurs. |
| Intent.DetectionIgnoresCase | brand_ai_assistant.py:229 | The result depends only on the lower-cased message. |
| Intent.LabelsAreDistinct | brand_ai_assistant.py:227-255 | Every result is one of exactly eight labels, and distinct categories have distinct labels. |
| Intent.DetectActionType | brand_ai_assistant.py:227-255 | The category is an image request exactly when an image phrase occurs in the lower-cased message, and any category other than general chat has one of its own keywords in it. `DetectionPrecedence` gives the full precedence. |
| Intent.NeedsReport | brand_ai_assistant.py:214 | The `needs_report` flag of a normal reply: the lower-cased message mentions "report" together with "generate" or "send". `ReportPhraseNeedsReport` states when it holds. |
| Intent.ReportPhraseNeedsReport | brand_ai_assistant.py:243-244 | A message containing "generate report" or "send report" sets `needs_report`, and is classified as a report request unless an image phrase also occurs. |
| InstagramPosts.SetField | brand_ai_assistant.py:360-367 | A field line sets exactly its own field of the current post, and no other. |
| InstagramPosts.ParseLines | brand_ai_assistant.py:353-369 | The line loop closes only non-empty posts and never drops or reorders a closed post. When it raises, the error is an index error. |
| Strings.AfterFirstSplits | brand_ai_assistant.py:361 | When the separator occurs, `split(sep, 1)[1]` is the text after its first occurrence. |
| InstagramPosts.ParseLinesStep | brand_ai_assistant.py:354-367 | One line at a time, after stripping: a "post" header closes the current post and starts an empty one; a line with none of the keywords is skipped; a field line without ":" raises the index error; a field line with ":" sets its field to the stripped text after the first ":". |
| InstagramPosts.ParseInstagramPosts | brand_ai_assistant.py:348-372 | A parse that returns gives at least one post and no empty post. |
| InstagramPosts.ParseLinesFailsIff | brand_ai_assistant.py:353-369 | The loop raises iff some stripped line is a caption, hashtag, time or type line with no ":", wherever it stands. |
| InstagramPosts.ParseFailsIff | brand_ai_assistant.py:348-372 | The parser raises iff some stripped line of the answer is a field line with no ":". |
| InstagramPosts.KindOf | brand_ai_assistant.py:356-367 | The first test a stripped line passes: a header (case-sensitive), then caption, hashtag, time and type keywords on the lower-cased line. A line classed as a caption always holds a ":". |
| InstagramPosts.CaptionHasColon | brand_ai_assistant.py:360-361 | A line whose lower-cased text holds "caption:" holds a ":" itself. |
| InstagramPosts.CaptionLineNeverCrashes | brand_ai_assistant.py:360-361 | A line selected by "caption:" always contains a ":", so it never raises. |
| InstagramPosts.NoFieldLinesCollectNothing | brand_ai_assistant.py:356-369 | Lines that are all headers or carry no keyword collect no post. |
| InstagramPosts.FallbackWhenNoFields | brand_ai_assistant.py:370-372 | An answer with no field line gives the single fallback post whose caption is the whole answer. |
| InstagramPosts.GenerateInstagramPosts | brand_ai_assistant.py:307-346 | The result is never empty and holds no empty post. A successful AI call whose answer parses returns exactly the parsed posts. A failed AI call, or a parse that raises, becomes a one-element error list carrying the error text. |
| BrandAssistant.NewAssistant | brand_ai_assistant.py:26-38 | A new assistant starts with an empty history. |
| BrandAssistant.ClearConversation | brand_ai_assistant.py:618-621 | Clearing empties the history and keeps the brand and its context. |
| BrandAssistant.EnhancedPrompt | brand_ai_assistant.py:269-279 | The image prompt starts with the user's prompt and a period and ends with the fixed quality suffix. Without a context it is exactly prompt + "." + ". High quality, …", with a doubled period. |
| BrandAssistant.JobContextPrompt | brand_ai_assistant.py:269-279 | With the context a completed job provides, the style clause is always "The style should be professional", with no values. |
| BrandAssistant.GenerateImageFor | brand_ai_assistant.py:257-305 | The result echoes the prompt and is a success iff the image call on the enhanced prompt succeeds. A success carries that call's URL and the enhanced prompt, a failure its error. |
| BrandAssistant.Respond | brand_ai_assistant.py:151-225 | Once the category is known, a turn appends the user message first. An image success is answered with the fixed image text around the prompt, its link and `needs_report` false. Otherwise the completion call on the system prompt and the whole history answers, and its text is the reply. If that call raises, the reply is the apology with action "error", `needs_report` false, and only the user message is added. |
| BrandAssistant.Chat | brand_ai_assistant.py:140-225 | A turn keeps the brand and context, and appends the user message and then exactly one assistant entry (two in all), or only the user message when the completion call raises. The reply has an image link iff the message is an image request and the image call on the enhanced prompt succeeds; the link is that call's URL and the text is the fixed image text around the message. Otherwise the reply text is the completion call's answer, or the apology carrying its error. The action is the detected category except on the error path. `needs_report` is the keyword test on the normal path and false otherwise. |
| BrandAssistant.ClearThenChat | brand_ai_assistant.py:618-621 | After clearing, the next turn leaves a history of the message alone, or the message followed by its reply. |
| BrandAssistant.ReplyLabel | brand_ai_assistant.py:140-225 | The reply's `action_type` is one of the eight labels or "error". It is "error" exactly when the turn failed, and the history then grows by one instead of two. |
| BrandAssistant.ChatAppendsPair | brand_ai_assistant.py:151-209 | A turn that did not fail adds exactly the user message and the assistant reply, in that order. |
| BrandAssistant.TurnsAppendPairs | brand_ai_assistant.py:151-209 | For any turn function that appends a message and its reply, n successful turns append the n pairs in call order. |
| BrandAssistant.SuccessfulTurnsAppendPairs | brand_ai_assistant.py:151-209 | After n chat turns none of which failed, the history is the earlier history followed by each message and its reply, in call order. |
| Api.PendingJob | market_genome_main.py:262-272 | A fresh job is PENDING with no report path or link, no email sent and no completion time, and it is marked as from a chat exactly when it carries a session id. |
| Api.AnalyzeBrand | market_genome_main.py:232-291 | An input shorter than three characters is refused with 400 and stores nothing. Otherwise a PENDING job with "Analysis starting..." is stored under the fresh id, which is the only key added and goes last in iteration order when new; no other job changes. |
| Api.AnalyzeTwice | market_genome_main.py:262-272 | Two analyses under two new ids list both jobs after the earlier ones, in call order. |
| Api.RunJob | market_genome_main.py:117-229 | The scheduled run replaces the stored record by the run's final record, which is COMPLETED or FAILED. No other job and no iteration position changes. |
| Api.GetGenomeStatus | market_genome_main.py:294-312 | An unknown id gives 404 "Job not found"; otherwise the view shows the record's status, message, input, link, email flag, creation time and completion time. |
| Api.ListGenomeJobs | market_genome_main.py:315-329 | The listing holds every stored job exactly once, in insertion order, with its status, input and creation time, and its total is the number of jobs. |
| Api.DownloadReport | market_genome_main.py:332-349 | An unknown job gives 404 "Job not found". A job without a non-empty report path, or whose file is missing, gives 404 "Report not found". Otherwise the response is the PDF under "marketing_genome_<id>.pdf". |
| Api.HasContext | market_genome_main.py:375-388 | Some COMPLETED job matches the handle ignoring case exactly when the first-match lookup finds one. |
| Api.FindContext | market_genome_main.py:375-388 | The lookup finds the first COMPLETED job in iteration order whose input equals the handle ignoring case, and finds none exactly when no job matches. |
| Api.WelcomeMessage | market_genome_main.py:405-416 | The greeting names the brand in bold. |
| Api.InitializeChat | market_genome_main.py:356-429 | Each call stores a new session under the fresh id, created and active now, and never reuses one for the same brand. The id is the only key added and goes last in iteration order when new. `has_context` holds iff some COMPLETED job matches the handle ignoring case, and the assistant then gets the (empty-sectioned) job context. A client construction error answers 500 and stores nothing. |
| Api.SendChatMessage | market_genome_main.py:432-474 | An unknown session gives 404 and changes nothing. Otherwise the session's assistant takes one chat turn, its activity time is renewed, and the response carries the turn's reply with an action label that is one of eight labels or "error". |
| Api.GenerateChatReport | market_genome_main.py:477-538 | An unknown session gives 404 and stores nothing. Otherwise a PENDING job for the session's brand, with type "auto" and a link to the session, is stored under the fresh id, which is the only key added and goes last in iteration order when new. |
| Api.GetChatHistory | market_genome_main.py:541-556 | An unknown session gives 404; otherwise the session id, the brand, the full history in order, and the creation and last-activity times. |
| Api.MessageThenHistory | market_genome_main.py:432-556 | After a message, the history view shows the renewed activity time, the unchanged creation time, and the user message right after the earlier entries. |
| Api.EndChatSession | market_genome_main.py:559-583 | An unknown session gives 404. Otherwise the session is removed whether or not the export succeeded, the other sessions keep their order, and the export path is reported only when it did. |
| Api.ListChatSessions | market_genome_main.py:586-600 | The listing holds exactly the live sessions, each once, in insertion order, with brand, creation and last-activity times and without assistant or history. |
| Api.EndThenLookUp | market_genome_main.py:559-583 | After a session is ended, its history request is a 404 and it no longer appears in the listing. |
| Api.InitializeTwice | market_genome_main.py:356-429 | Two chats opened for the same brand under two fresh ids are two sessions. |

## Left out

- The AI service, page fetching and HTML parsing, PDF rendering, SMTP mail, the clock and uuids are parameters. Their behaviour, the prompts sent to the AI service and the JSON decoding of its answers are not modelled.
- The wording of the system prompt (`_build_system_prompt`) is not modelled. Only its inputs are: the brand handle, and whether a context is present.
- `predict_engagement`, `create_campaign`, `analyze_competitor`, `get_audience_personas` and `weekly_content_strategy` are not modelled: each is one AI call and a JSON decode.
- `export_conversation` file writing is a `Result` parameter of `EndChatSession`. The session id stamped at construction and at `clear_conversation` is not modelled, because it only names the export file.
- Api.GetChatHistory: returns the history entries without their `timestamp` fields. `chat` stamps every entry, and the reply, with `datetime.now()`. The clock is a parameter, and `Message` leaves the stamp out, so the history and the reply the model returns carry no timestamps.
- Background scheduling and concurrency are not modelled: a scheduled run is a separate sequential call, `Api.RunJob`.
- FastAPI routing, CORS, the HTML pages, startup output, `start_simple.py` and `config.py` are not modelled. Neither is the `EmailStr` validation of request bodies.
- The 50-character display-name truncation of the mailer is not modelled (email_service.py is not part of this model). Delivery is a function returning a boolean that never raises, as `send_email` catches every error.
- Strings.Lower: folds ASCII letters only, whereas Python's `str.lower` also folds other scripts.
- Api.RunJob: requires the job to be stored already. The source's run indexes `genome_jobs[job_id]` and would raise otherwise, but every caller stores the job first.
- Api.SendChatMessage: the 500 answer for an exception raised inside the handler is not modelled, because `chat` catches the completion call's errors itself.
- Api.GenerateChatReport: the 500 answer for an exception inside the handler is not modelled. Nothing in the modelled part of the handler raises.
- BrandAssistant.Chat: the text of the image-failure note is not modelled, because the source overwrites it without reading it: a failed image request falls through to the completion call.
- InstagramPosts.ParseInstagramPosts: the record for a raising parse is stated, but Python's message text for the index error is taken as the constant "list index out of range".
- Pipeline.Run: the failure mail's own failure is swallowed, and the model records only that the mail was attempted, as the last event.
