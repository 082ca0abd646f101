# Brand-AI core in Dafny

Brand-AI is a single-page web app. The user enters a brand's homepage. The app
asks a generative-AI provider to extract the brand's identity ("brand DNA") from
it. The user then uploads an ad creative and gets a critique back: scores, a
verdict and fixes. This project models the parts of the app that decide things
locally:

- the service wrapper (`GeminiService`): the API-key guard, the model choice,
  the critique prompt template, the data-URL payload split, the fence cleanup
  of the reply, and the error each failure becomes;
- the application controller (`App`): a two-step state machine, URL input then
  critique form, with its loading flags, error slots and results-panel
  precedence;
- the critique form (`InputForm`) and the URL form (`WebsiteInput`): field
  updates and the ordered checks before each form submits;
- the results display (`ResultsDisplay`): badge style per verdict, score
  percentages, bar colours, and the choice of view.

Support modules: `Wrappers` (Option, Result), `Types` (the records of
`types.ts`, a browser `File`, a thrown value) and `Strings` (JavaScript's `trim`,
`split`, `join` and template literals).

The provider call is a parameter `generate: Request -> Result<string, Thrown>`.
`JSON.parse` with its type cast is a parameter `parse: string -> Option<T>`. A
success of `parse` is taken to be a complete, non-null record of the declared
shape. The code itself checks nothing of the kind: see "## Left out". `new URL(url)` is a parameter
`isValidUrl: string -> bool`. `FileReader` is the parameter `readAsDataUrl`,
where `None` means the read failed. `URL.createObjectURL` is the parameter
`objectUrl`. Each asynchronous handler in `App` is split into a start step and a
settle step; the settle step receives the service's outcome.

Two facts about the code that the model keeps:

- Fence stripping is not idempotent. `StripNotIdempotent` shows that "``````"
  cleans to "```", and "```" cleans to "".
- A failed file read rejects with the reader's event, which is not an `Error`.
  The controller then shows its generic "unknown error" text, not a message
  from the service.

## Model

| member | source | states |
|---|---|---|
| Strings.Trim | services/geminiService.ts:181 | `trim()` returns the slice of the text between its leading and trailing whitespace; only whitespace is dropped, and the result neither starts nor ends with whitespace |
| Strings.TrimStart | services/geminiService.ts:181 | dropping leading whitespace leaves a suffix of the input; only whitespace was dropped |
| Strings.TrimEnd | services/geminiService.ts:181 | dropping trailing whitespace leaves a prefix of the input; only whitespace was dropped |
| Strings.TrimUnchanged | services/geminiService.ts:181 | text that neither starts nor ends with whitespace is its own trim |
| Strings.TrimIdempotent | services/geminiService.ts:181 | trimming twice is trimming once |
| Strings.Split | services/geminiService.ts:11 | `split(',')` yields at least one piece; no piece holds the separator; there is one piece exactly when the text has no separator |
| Strings.JoinSplit | services/geminiService.ts:11 | joining the pieces of a split with the separator restores the text |
| Strings.SplitJoin | services/geminiService.ts:11 | splitting the join of separator-free pieces restores the pieces |
| Strings.FillSlot | services/geminiService.ts:137-145 | in a template literal, each substituted value appears verbatim at its slot, between the chunk before it and the chunk after it |
| Strings.SlotStartNext | services/geminiService.ts:137-145 | template slots come in order: each begins after the previous value and the chunk that follows it |
| Strings.FillEndsWithLastChunk | services/geminiService.ts:137-145 | a template literal ends with its last literal chunk |
| Strings.FillSlotFramed | services/geminiService.ts:137-145 | a value whose surrounding chunks end with a label and begin with a delimiter sits between that label and that delimiter |
| Types.Verdict.Label | types.ts:11 | every verdict's label is one of the four declared strings |
| Types.LabelsAreVerdictLabels | types.ts:11 | no two verdicts share a label, and each of the four declared strings is some verdict's label |
| GeminiService.DropFences | services/geminiService.ts:182-187 | after trimming, the result is the slice that starts after a "```json" opener when there is one, and is never longer than its input |
| GeminiService.StripFences | services/geminiService.ts:181-187 | the cleaned reply is never longer than the trimmed reply |
| GeminiService.CleanResponseText | services/geminiService.ts:181-187 | the step-by-step reassignment of `jsonString` computes `StripFences` |
| GeminiService.FencedRoundTrip | services/geminiService.ts:181-187 | for any body s, cleaning "```json" + s + "```" yields exactly s |
| GeminiService.UnfencedUnchanged | services/geminiService.ts:181-187 | trimmed text with neither the opener nor the closing fence is passed on unchanged |
| GeminiService.FencedLikeBare | services/geminiService.ts:181-187 | a fenced reply and the same reply unfenced reach the parser as the same text, for a body with no surrounding whitespace |
| GeminiService.FencedReplyParsesLikeBare | services/geminiService.ts:181-192 | for a parser that ignores surrounding JSON whitespace (as `JSON.parse` does), the usual reply "```json" + whitespace + body + whitespace + "```" gives the same outcome as the bare body |
| GeminiService.BareOpenerKept | services/geminiService.ts:182-187 | only "```json" counts as an opener: "```" + body + "```" keeps its leading "```" and loses only the closing fence |
| GeminiService.StripNotIdempotent | services/geminiService.ts:181-187 | cleaning is not idempotent: "``````" cleans to "```", and "```" cleans to "" |
| GeminiService.ParseReply | services/geminiService.ts:188-192 | the parse of the cleaned reply succeeds exactly when `parse` does, with its value; a failure becomes the operation's fixed message |
| GeminiService.ModelFor | services/geminiService.ts:206-207 | the model is 'gemini-2.5-pro' exactly when the MIME type starts with "video/", and 'gemini-2.5-flash' otherwise |
| GeminiService.DataUrlPayload | services/geminiService.ts:11 | the payload is present exactly when the data URL holds a comma, and it never holds a comma |
| GeminiService.PayloadOfDataUrl | services/geminiService.ts:9-11 | for a comma-free header and a comma-free base64 body, the payload of header + "," + body is exactly the body |
| GeminiService.NoCommaNoPayload | services/geminiService.ts:11 | text without a comma yields `undefined` |
| GeminiService.PromptChunksText | services/geminiService.ts:137-145 | the template's literal chunks are the source text, with its line breaks and indentation |
| GeminiService.PromptChunksFrameFields | services/geminiService.ts:137-145 | each chunk ends with the next field's label and begins with the previous field's delimiter |
| GeminiService.PromptShowsField | services/geminiService.ts:137-145 | name, personality, colors, platform, description and competitors all appear verbatim in the prompt, in that order; each sits right after its label and right before its comma or closing bracket |
| GeminiService.BuildFullPrompt | services/geminiService.ts:137-145 | the prompt opens with the first template chunk (the critique instruction and "BRAND: [Name: ") and closes with the last one (the COMPETITORS bracket and the trailing indentation); `PromptChunksText` spells both out |
| GeminiService.ScrapeRequest | services/geminiService.ts:154-177 | the URL request uses 'gemini-2.5-flash' with search and no system instruction; its one text part starts with the instruction head, ends with the instruction tail, and holds the URL verbatim right after the head |
| GeminiService.CritiqueRequest | services/geminiService.ts:206-227 | the critique request uses 'gemini-2.5-pro' exactly for video MIME types and 'gemini-2.5-flash' otherwise; search is on and the rubric is the system instruction; the media part (MIME type and payload) comes first, then the prompt |
| GeminiService.ScrapeBrandInfo | services/geminiService.ts:148-193 | with no API key: fails with "API_KEY environment variable is not set." and sends nothing. With a key: sends the flash-model URL request with search enabled; a transport failure passes through unchanged; otherwise the cleaned reply is parsed, and a parse failure becomes "The AI failed to analyze the website URL correctly." |
| GeminiService.GetCritique | services/geminiService.ts:196-244 | with no API key: fails with the key message and sends nothing. A failed file read rejects with a non-Error value and sends nothing. Otherwise it sends the request built from the model choice, the inline payload, the prompt and the rubric; a transport failure passes through; a parse failure becomes "The AI returned an invalid response format." |
| GeminiService.NoKeyIgnoresProvider | services/geminiService.ts:149-151 | without a key, the outcome of either operation does not depend on the provider at all |
| App.ScrapeSuccess | App.tsx:26-43 | a successful scrape stores the data, moves to CRITIQUE_FORM, clears scrapingError and ends with isScraping false; nothing else changes |
| App.ScrapeFailure | App.tsx:33-41 | a failed scrape keeps the step and the scraped data and sets scrapingError to "Scraping failed: " + message, or to the fixed text for a non-Error |
| App.CritiqueRound | App.tsx:45-66 | starting clears critique and error and sets isLoading. After settling: exactly one of critique and error is set, isLoading is false, and appStep and scrapedBrandInfo are unchanged |
| App.AnalysisErrorTexts | App.tsx:58-62 | a critique failure reads "Analysis failed: " + message + ". Check console for details.", or the fixed text for a non-Error |
| App.StepMoves | App.tsx:26-74 | the step moves to CRITIQUE_FORM only by a successful scrape, and back to URL_INPUT only by reset; both always do so |
| App.CritiqueFormNeedsScrape | App.tsx:14-74 | any run that reaches CRITIQUE_FORM from URL_INPUT contains a successful scrape |
| App.ValidRun | App.tsx:26-74 | every run of events the UI can deliver preserves the invariant: the form step has scraped data, a pending scrape has no scrape error, a pending critique has no result and no error, and result and error are never both set |
| App.ReachableValid | App.tsx:14-23 | every state reachable from the initial state satisfies the invariant |
| App.MissingKeyScrape | App.tsx:30-39 | with no API key, a scrape attempt leaves "Scraping failed: API_KEY environment variable is not set." and keeps the current step |
| App.ScrapingErrorText | App.tsx:35-39 | the scrape error text is never empty, and an `Error`'s message ends it |
| App.AnalysisErrorText | App.tsx:58-62 | the analysis error text is never empty, and an `Error`'s message appears right after "Analysis failed: " |
| App.StartScrape | App.tsx:27-28 | the scraping flag goes on and the scrape error goes away; nothing else changes; the invariant is kept |
| App.SettleScrape | App.tsx:29-42 | the flag goes off. Success: stores the data and moves to CRITIQUE_FORM. Failure: keeps step and data and records the error text. Nothing else changes; the invariant is kept |
| App.StartCritique | App.tsx:50-52 | loading goes on and result and error go away; nothing else changes; the invariant is kept |
| App.SettleCritique | App.tsx:53-65 | loading goes off and the result or the error text is recorded; nothing else changes. Settling an outstanding request keeps the invariant and leaves exactly one of result and error |
| App.Reset | App.tsx:68-74 | goes to URL_INPUT and nulls critique, error, scrapingError and scrapedBrandInfo; isLoading, isScraping and showGuide are unchanged; the invariant is kept |
| App.Apply | App.tsx:26-134 | only the guide events change the guide, and they change nothing else; every event the UI can deliver keeps the invariant |
| App.ResultsPanelFor | App.tsx:102-119 | the loader exactly while loading, else the error exactly when it is non-empty, else the critique when there is one, else the placeholder |
| App.RenderContent | App.tsx:76-126 | the URL screen exactly on URL_INPUT, with the scraping flag and error; otherwise the form, given the scraped data, beside the results panel; in a state that keeps the invariant the form is pre-filled |
| App.ReachableFormPrefilled | App.tsx:95-99 | in every reachable state, the critique form is given scraped data to pre-fill |
| App.SettledPanel | App.tsx:53-65 | after a critique settles, the panel shows its result or its error message |
| App.AppController.constructor | App.tsx:14-23 | the initial state: URL_INPUT, no result, no errors, no scraped data, flags off |
| App.AppController.HandleUrlSubmitStart | App.tsx:27-28 | sets isScraping and clears scrapingError |
| App.AppController.HandleUrlSubmitSettle | App.tsx:29-42 | the new state is the scrape's success or failure branch, then isScraping false |
| App.AppController.HandleCritiqueRequestStart | App.tsx:50-52 | sets isLoading and clears critique and error |
| App.AppController.HandleCritiqueRequestSettle | App.tsx:53-65 | the new state is the critique's success or failure branch, then isLoading false |
| App.AppController.HandleReset | App.tsx:68-74 | the new state is the reset state |
| App.AppController.SetShowGuide | App.tsx:110 | only showGuide changes |
| InputForm.InitialBrandInfo | components/InputForm.tsx:23-31 | with no initial value, the record is empty strings with platform 'TikTok'; otherwise it is the initial value |
| InputForm.Validate | components/InputForm.tsx:63-75 | with no file: 'Please upload an image or video file.', whatever the fields hold. With a file but an empty name, platform or description: the fill-in message. Otherwise it submits the file, record and description unchanged |
| InputForm.OptionalFieldsIgnored | components/InputForm.tsx:69 | personality, colors and competitors never decide whether the form submits |
| InputForm.FieldValue | components/InputForm.tsx:50-61 | a name reads a brand field exactly when it is one of name, personality, colors, platform and competitors |
| InputForm.WithField | components/InputForm.tsx:59 | the named brand field takes the value; every other field keeps its value; an unknown name changes nothing |
| InputForm.Form.constructor | components/InputForm.tsx:20-33 | no file, no preview, no error, empty description, and the initial brand record |
| InputForm.Form.SyncInitialBrandInfo | components/InputForm.tsx:35-39 | a non-null initial value replaces the whole brand record; nothing else changes |
| InputForm.Form.HandleFileChange | components/InputForm.tsx:41-48 | selecting a file stores it and its preview and clears the error; an empty selection changes nothing |
| InputForm.Form.HandleInputChange | components/InputForm.tsx:50-61 | 'contentDescription' updates only the description; any other name updates only its brand field |
| InputForm.Form.HandleSubmit | components/InputForm.tsx:63-75 | sets the error and submits nothing when a check fails; otherwise clears the error and hands over the current values; no field other than the error changes |
| WebsiteInput.Gate | components/WebsiteInput.tsx:19-29 | a valid URL clears the message and is handed on unchanged; an invalid one sets 'Please enter a valid URL (e.g., https://example.com)' and is not handed on |
| WebsiteInput.UrlForm.constructor | components/WebsiteInput.tsx:16-17 | the URL and the validation message start empty |
| WebsiteInput.UrlForm.SetUrl | components/WebsiteInput.tsx:43 | the field's change handler replaces the URL only |
| WebsiteInput.UrlForm.HandleSubmit | components/WebsiteInput.tsx:19-29 | the URL is never modified; the message and the callback follow the gate |
| WebsiteInput.UrlForm.HandleSubmitTwice | components/WebsiteInput.tsx:27 | a second submit of the same URL hands on the same value and leaves the same state, because the message is overwritten rather than accumulated |
| ResultsDisplay.VerdictColor | components/ResultsDisplay.tsx:9-21 | DEPLOY gets the accent style and REVISE the warn style; KILL and 'UNDEPLOYABLE - KILL IT' share the kill style; every other string gets gray |
| ResultsDisplay.DeclaredVerdictsColoured | components/ResultsDisplay.tsx:9-21 | none of the four declared verdicts falls back to gray; exactly KILL and UNDEPLOYABLE get the kill style |
| ResultsDisplay.PercentageInRange | components/ResultsDisplay.tsx:24 | a score in [0, 1] rounds to a percentage in [0, 100] |
| ResultsDisplay.PercentageMonotone | components/ResultsDisplay.tsx:24 | a higher score never shows a lower percentage |
| ResultsDisplay.PercentageOfHundredths | components/ResultsDisplay.tsx:24 | a score in whole hundredths shows as exactly that many percent |
| ResultsDisplay.Percentage | components/ResultsDisplay.tsx:24 | `Math.round(score * 100)`: the integer nearest to score × 100, halves rounding up |
| ResultsDisplay.BarColor | components/ResultsDisplay.tsx:25-29 | accent for p ≥ 80, warn for 60 ≤ p < 80, kill for p < 60 |
| ResultsDisplay.BarColorMonotone | components/ResultsDisplay.tsx:25-29 | raising the percentage never moves the bar from a better band to a worse one |
| ResultsDisplay.ScoreBar | components/ResultsDisplay.tsx:23-41 | the bar shows the rounded percentage, is coloured by its band, and is exactly that percentage wide |
| ResultsDisplay.Render | components/ResultsDisplay.tsx:43-149 | the kill view exactly for 'UNDEPLOYABLE - KILL IT', with the kill badge, the kill reasons (none when absent) and the emergency fix; otherwise the scorecard with the verdict's badge, the breakdown, the brutal truth, "what broke" (none when absent), the fix and the market intel with trends joined by ", " |
| ResultsDisplay.Breakdown | components/ResultsDisplay.tsx:99-121 | the breakdown is empty exactly when there are no explanations; otherwise four items, brand fit, clarity, visual quality and safety, each with its sub-score's percentage and its own explanation |
| ResultsDisplay.ScorecardBars | components/ResultsDisplay.tsx:84-97 | the scorecard shows six bars in fixed order (overall, viral, brand fit, clarity, visual quality, safety); each carries its own score's percentage as its width |
| ResultsDisplay.ScorecardBarsInRange | components/ResultsDisplay.tsx:84-97 | with all six scores in [0, 1], every bar is between 0 and 100 percent wide |
| ResultsDisplay.DeployExample | components/ResultsDisplay.tsx:72-86 | a DEPLOY critique with overall score 0.86 shows the DEPLOY badge and an 86% accent bar first |

## Left out

- The provider call, the `GoogleGenAI` client and the search tool configuration (services/geminiService.ts:152,171-177,204,220-227) are outside the model. They are a foreign network API, replaced by the `generate` parameter. A `Request` records the model, the parts, whether search is on and whether the rubric is the system instruction.
- The rubric text `SYSTEM_PROMPT` (services/geminiService.ts:17-135) is absent. It is only an instruction to the external model, so a request just flags that it carries it. `components/ScoringGuide.tsx` is left out for the same reason: it is static text. The averages, weights and thresholds it describes are computed by no code.
- `JSON.parse` and the `as BrandInfo` / `as CritiqueResult` casts are the abstract `parse` parameter. Its success value is assumed to be a non-null record of the declared shape. The source checks neither: `JSON.parse("null")` succeeds (services/geminiService.ts:188,239), and a reply without `scores` makes the results view throw (components/ResultsDisplay.tsx:92). Score ranges are not checked either.
- App.Valid, App.Apply, App.ValidRun and App.ReachableValid: their invariant "the form step has scraped data" rests on that assumption. A scrape whose reply parses to `null` stores `null` and still moves to CRITIQUE_FORM (App.tsx:31-32).
- App.CritiqueRound, App.SettleCritique and App.SettledPanel: "exactly one of result and error" and "the panel shows the result" rest on the same assumption. A critique that parses to `null` leaves both unset, and the placeholder is shown (App.tsx:55,109-118).
- `FileReader` (services/geminiService.ts:5-14) is outside the model; only the comma split of its result is modelled. A failed read is `readAsDataUrl == None`.
- `URL.createObjectURL` (components/InputForm.tsx:45) is the `objectUrl` parameter. `new URL` (components/WebsiteInput.tsx:23) is the `isValidUrl` parameter.
- The browser's own checks on `<input type="url" required>` (components/WebsiteInput.tsx:45-53) are not modelled. Only the handler's gate is.
- Promise scheduling and React re-render timing are not modelled. Each handler is a start step and a settle step, and `App.Enabled` allows a settle only while its request is outstanding. `Enabled` allows more than the UI does: the UI offers reset only on CRITIQUE_FORM (App.tsx:85-92) and the URL form only on URL_INPUT. The invariant is proved for this larger set of runs, so it also holds for the runs the UI produces.
- `console.error` logging is left out, since it has no effect on state.
- Static markup is left out: `components/ProjectSummary.tsx`, `components/Header.tsx`, `components/Loader.tsx`, and every class string other than the verdict and bar colours.
- A `response.text` that is missing is not modelled. The reply text is always a string.
- ResultsDisplay.ScoreBar: the width is the percentage as a number, not the CSS string `${percentage}%`. The model has no number-to-string conversion.
- ResultsDisplay.Percentage: scores are reals, not IEEE doubles, and `Math.round(x)` is `floor(x + 0.5)`. Rounding artefacts of `score * 100` in floating point are not captured.
- InputForm.WithField: for a name that is not a brand field, the source adds an extra property to the record. The model ignores it, since no input of the form has such a name.
- Types.CritiqueResult: `scoreExplanations` is optional. `types.ts` declares it required, but components/ResultsDisplay.tsx:99 tests for it.
- GeminiService.CritiqueRequest: the two contents entries of the source, each a one-part content, are flattened into one sequence of parts in order.
