# LatidosCercanos — a Dafny model of the lost-and-found pet board

LatidosCercanos is a single-page application for Iquique, Chile. People
report lost or found pets on a map, browse and filter the reports, get
AI-suggested matches for a lost pet, and ask the AI to do several things:
- extract a pet's attributes from a photo;
- edit a report's photo;
- write a social-media appeal;
- list nearby veterinary and shelter places;
- chat with an assistant.

This project models the logic of the application's core in Dafny and proves
properties of it:

- **The home screen's view controller** (`App.tsx`) is a class
  `App.ViewController`. Its fields are the component's state slots. The
  report-detail dialog's ten slots are grouped in one `Detail` record; the
  screen slots in `Screen`; the filter slots in `FilterState`. Every handler
  is a method whose `ensures` gives the whole new state as an update of the
  old one (`State() == old(State()).(…)`). The one exception is the image
  edit, where the new image is pinned down by a property (the data URL of the
  first inline part) rather than by an expression. The pure parts have their own
  modules:
  - `ReportFilter`: the five-stage filter chain;
  - `ReportStore`: the photo replacement, the candidate list and the
    suggested matches;
  - `Text`: the JavaScript `toLowerCase`, `trim` and `includes` the filters use;
  - `Seqs`: `Array.prototype.filter` as `Where`.
- **The AI gateway** (`services/geminiService.ts`) is module `Gateway`. The
  network calls are outside the model. Each operation takes what the call
  returned, or the fact that it threw, as an input value. The model keeps:
  - the data-URL splitting;
  - the image-part loop;
  - the short-circuit for an empty candidate list;
  - the flattening of grounding citations and their de-duplication by URI;
  - the fixed error messages.
- **The chat assistant** (`components/Chatbot.tsx`) is class `Chat.Chatbot`.
  A send appends the user's message, then a placeholder that each streamed
  chunk overwrites with the running text, and an apology when the stream fails.
- **The report form** (`components/PostForm.tsx`) is class `PostForm.PostForm`:
  its field slots, the photo pick, the attribute extraction and the
  submit-time validation.
- **The sign-in dialog** (`components/AuthModal.tsx`) is module `AuthModal`:
  the three-view state machine and class `AuthDialog`.
- **The seed data** (`constants.ts`) is module `Seed`. Scenario lemmas in
  `Scenarios` run the model on it.

JavaScript details are written out:
- Truthiness of optional or empty strings is `Types.Truthy`.
- A streamed chunk without text appends the string `"undefined"`, and an
  inline-data part without a MIME type or data prints `undefined` into its data URL.
- The service's `response.text` can be `undefined`. The places answer and the
  social-post text carry it as an `Option`.
- `split(',')[1]` takes the segment between the first and second comma, and
  is `undefined` when there is no comma.
- `findIndex` returns -1 when nothing is found.
- `trim` removes the ECMAScript white-space and line-terminator set.

## Model

| member | source | states |
|---|---|---|
| App.AuthorName | App.tsx:120 | the author name is the display name when it is truthy, otherwise "Anonymous"; it is never empty |
| App.NewPost | App.tsx:115-121 | the new report carries exactly the form data, the id `post_<now>`, the creation time, the user's uid and the author name |
| App.Decimal | App.tsx:117 | the numeral of a timestamp has only decimal digits, ends with the last digit, and has one digit exactly below 10 |
| App.PostId | App.tsx:117 | the id of a report created at a clock reading: `post_` followed by its decimal numeral |
| App.DecimalInjective | App.tsx:117 | different timestamps print differently |
| App.PostIdInjective | App.tsx:117 | reports created at different milliseconds get different ids |
| App.ErrorText | App.tsx:194 | an error text is the thrown message when it is non-empty, otherwise the "unknown error" text; it is never empty |
| App.ClosedModalResets | App.tsx:168-181 | closing the detail dialog clears the selection and every per-dialog slot, is idempotent, and leaves all other slots unchanged |
| App.ClosedModal | App.tsx:168-181 | the state after closing the detail dialog: every per-dialog slot back to its initial value |
| App.ReopenAfterCloseIsFresh | App.tsx:168-181 | after a close, selecting any report shows no places, image, edit error or social text left over from before |
| App.ViewController.constructor | App.tsx:55-91 | once mounted: nobody signed in, the four seed reports, the home screen, no filter, nothing open; all four seed reports are shown |
| App.ViewController.Shown | App.tsx:251-262 | the reports the home screen shows: the store through the current filters and user |
| App.ViewController.HandleLogin | App.tsx:94-97 | the mock user is signed in and the sign-in dialog is closed; nothing else changes |
| App.ViewController.HandleLogout | App.tsx:98-101 | nobody is signed in and "my reports only" is off; nothing else changes |
| App.ViewController.HandleUpdateProfilePicture | App.tsx:103-107 | with a user, only the user's photo changes; without one nothing changes |
| App.ViewController.HandleCreatePost | App.tsx:109-144 | without a user nothing changes and nothing is sent. Otherwise the new report heads the store. For a lost report the suggestion request (summaries of the found reports of the updated store) is issued and the returned reports become the suggested matches. Then the submit button resets, the screen returns home and a success toast shows |
| App.ViewController.HandleClearFilters | App.tsx:146-151 | type, breed, colour and size are cleared; "my reports only" and every other slot are kept |
| App.ViewController.HandleFindNearbyPlaces | App.tsx:153-166 | without a selection nothing changes and nothing is sent. Otherwise places are requested around the selected report. The stored answer is the reply's text with its flattened, de-duplicated citations, or the fixed apology with none when the call failed. Its URIs are distinct, loading is off, and nothing else changes |
| App.ViewController.HandleCloseModal | App.tsx:168-181 | the new state is the closed-dialog state of the old one |
| App.ViewController.HandleGenerateEditedImage | App.tsx:183-198 | without an instruction or a selection nothing changes and nothing is sent. Otherwise the image, when it could be read, is sent with its MIME type, its base64 payload and the instruction. An edited image appears exactly when the image was read, the call returned and some part has inline data, and it is the data URL of the first such part. Otherwise the edit error shows. Generation is off and nothing else changes |
| App.ViewController.HandleGenerateSocialPost | App.tsx:200-213 | with a selection the returned text is kept (an `undefined` text shows as none); on failure no text and an error toast; generation is off. Without a selection nothing changes |
| App.ViewController.HandleSaveChanges | App.tsx:225-239 | without an edited image or a selection nothing changes. Otherwise the selected report's photo is replaced in the store, the dialog is closed and a success toast shows |
| App.ViewController.HandleMapClick | App.tsx:241-249 | with nobody signed in the sign-in dialog opens with an error toast; otherwise the clicked point is kept for the form and the form opens |
| App.ViewController.OpenCreatePost | App.tsx:272 | the form opens; nothing else changes |
| App.ViewController.CancelCreatePost | App.tsx:369-372 | back to the home screen, and the clicked point is forgotten |
| App.ViewController.SelectPost | App.tsx:351-360 | the clicked report becomes the selection; nothing else changes |
| App.ViewController.SetFilters | App.tsx:289-333 | the type, breed, colour and size controls set their slots; "my reports only" is kept |
| App.ViewController.ToggleMyPostsOnly | App.tsx:295 | "my reports only" flips; nothing else changes |
| App.ViewController.DismissSuggestions | App.tsx:581 | the suggested matches are cleared |
| App.ViewController.SetEditing | App.tsx:426-461 | the editor's open flag and the instruction are set; nothing else changes |
| App.ViewController.DiscardEditedImage | App.tsx:413 | the edited image and the instruction are cleared |
| App.ViewController.SetAuthModalOpen | App.tsx:270 | the sign-in dialog opens or closes |
| ReportFilter.Cleared | App.tsx:146-151 | the cleared filter has no type, breed, colour or size restriction and keeps the given "my reports only" flag |
| ReportFilter.TypeStage | App.tsx:252 | "all types" passes every report, otherwise only reports of the chosen type |
| ReportFilter.BreedStage | App.tsx:253-255 | a breed filter that trims to nothing passes all; otherwise the lowered breed must include the lowered, then trimmed, filter |
| ReportFilter.ColorStage | App.tsx:256-258 | an empty colour filter passes all; otherwise the lowered colour must include the lowered filter |
| ReportFilter.SizeStage | App.tsx:259-261 | an empty size filter passes all; otherwise the size must equal it |
| ReportFilter.OwnerStage | App.tsx:262 | with "my reports only" off all pass; otherwise only the signed-in user's reports |
| ReportFilter.Admits | App.tsx:251-262 | a report passes all five stages |
| ReportFilter.FilteredPosts | App.tsx:251-262 | the five `filter` calls chained in the source's order |
| ReportFilter.FilteredIsOnePass | App.tsx:251-262 | the chain of five filters equals one filter by the conjunction of the five stages |
| ReportFilter.FilteredIsSubsequence | App.tsx:251-262 | the shown reports are a subsequence of the store, in store order |
| ReportFilter.FilteredMembership | App.tsx:251-262 | a report is shown if and only if it is in the store and passes every stage |
| ReportFilter.FilteredCount | App.tsx:251-262 | each admitted report is shown as many times as it is stored; a rejected one is not shown |
| ReportFilter.MineOnlyWithoutUserIsEmpty | App.tsx:262 | with "my reports only" on and nobody signed in, nothing is shown |
| ReportFilter.ClearedShowsAll | App.tsx:146-151 | with the filters cleared and "my reports only" off, the whole store is shown |
| ReportFilter.BlankBreedAdmitsAll | App.tsx:253-255 | a breed filter of only white space passes every report |
| ReportFilter.ColorMatchesInsideWords | App.tsx:256-258 | a non-empty colour filter that occurs verbatim inside the colour passes the report |
| ReportStore.WithPhoto | App.tsx:229-231 | the copy has the new photo and every other field of the report |
| ReportStore.ReplacePhoto | App.tsx:229-231 | same length; per position only the photo can change, and it changes exactly for the reports with the given id |
| ReportStore.FoundCandidates | App.tsx:128 | the found reports of the store, in store order |
| ReportStore.ReplacePhotoIdempotent | App.tsx:229-231 | replacing a photo twice with the same URL equals replacing it once |
| ReportStore.FilterCommutesWithReplacePhoto | App.tsx:229-231 | no filter stage reads the photo: the shown list after a replacement is the old shown list with the photo replaced |
| ReportStore.FoundCandidatesExact | App.tsx:127 | a report is a candidate if and only if it is a found report in the store |
| ReportStore.ShownMatches | App.tsx:131 | the stored reports whose id the service returned, in store order |
| ReportStore.ShownMatchesAreReturnedReports | App.tsx:131 | a report is shown as a match if and only if it is stored and the service returned its id |
| ReportStore.ShownMatchesInStoreOrder | App.tsx:131 | the matches appear in store order, not in the service's order |
| Seqs.WhereMembership | App.tsx:251-262 | `filter` keeps exactly the elements that pass |
| Seqs.WhereCount | App.tsx:251-262 | `filter` keeps every passing element as often as it occurs and drops the others |
| Seqs.WhereFuse | App.tsx:251-262 | two chained filters equal one filter by both conditions |
| Seqs.WhereIsSubsequence | App.tsx:251-262 | `filter` keeps order |
| Text.LowerChar | App.tsx:254 | the lower-cased character is never an upper-case Latin-1 letter; upper-case letters move up 32 code points and every other character is kept |
| Text.Lower | App.tsx:254 | lower-casing keeps length and lower-cases each character |
| Text.LowerIdempotent | App.tsx:254 | lower-casing twice is lower-casing once |
| Text.TrimStart | App.tsx:254 | the result is a suffix of the input, the dropped prefix is all white space, and the result does not start with white space |
| Text.TrimEnd | App.tsx:254 | the result is a prefix of the input, the dropped suffix is all white space, and the result does not end with white space |
| Text.Trim | App.tsx:254 | `trim`: white space removed at the start, then at the end |
| Text.TrimSpec | App.tsx:254 | the trimmed string is a slice of the input with only white space outside it |
| Text.TrimEnds | App.tsx:254 | a non-empty trimmed string neither starts nor ends with white space |
| Text.TrimEmptyIffAllSpace | App.tsx:254 | a string trims to nothing if and only if it is all white space |
| Text.TrimIdempotent | App.tsx:254 | trimming twice is trimming once |
| Text.Contains | App.tsx:254-257 | `includes`: some window of the text spells the needle |
| Text.ContainsLowered | App.tsx:254-257 | an occurrence survives lower-casing both sides |
| Gateway.TakeUntilComma | services/geminiService.ts:42 | the result is the comma-free prefix up to the first comma |
| Gateway.Base64Payload | services/geminiService.ts:17 | `split(',')[1]`: there is a payload exactly when the text has a comma, and it never contains one |
| Gateway.AfterFirstComma | services/geminiService.ts:42 | there is a rest exactly when there is a comma, and it is what follows the first comma |
| Gateway.AfterFirstCommaOfJoin | services/geminiService.ts:42 | after a comma-free prefix and a comma, the rest of the text is exactly what follows the first comma |
| Gateway.DataUrlPayloadRoundTrip | services/geminiService.ts:42 | splitting a `data:` URL built from a comma-free type and payload gives the payload back |
| Gateway.DataUrl | services/geminiService.ts:138 | the `data:<type>;base64,<data>` URL of an inline part |
| Gateway.ResponseParts | services/geminiService.ts:136 | the parts of the first candidate, or none when that path is missing or the call failed |
| Gateway.EditImageFromUrl | services/geminiService.ts:108-148 | the request carries the fetched type, the base64 payload and the instruction. The edit succeeds if and only if the image was read, the call returned, and some part has inline data. The result is the data URL of the first such part; every failure is the one fixed message |
| Gateway.SummarizeLost | services/geminiService.ts:164-170 | the lost summary carries exactly breed, colour, size, description and location |
| Gateway.SummarizeFound | services/geminiService.ts:172-179 | the projection of one found report: its id and matching attributes, without photo or author |
| Gateway.SummarizeAllFound | services/geminiService.ts:172-179 | one summary per found report, in order, each with that report's id and attributes |
| Gateway.GetSuggestions | services/geminiService.ts:156-232 | no candidates gives no request and no ids. Otherwise the request carries both summaries. A reply with a parsed `matches` field returns exactly those ids; any other reply returns none |
| Gateway.GeneratePetDescription | services/geminiService.ts:55-99 | success exactly when the reply parsed, carrying its attributes; otherwise the fixed message |
| Gateway.GenerateSocialMediaPost | services/geminiService.ts:306-347 | success exactly when the call returned, carrying its text as returned (`undefined` included); otherwise the fixed message |
| Gateway.SnippetTitle | services/geminiService.ts:278 | the snippet title if truthy, else the place title if truthy, else "Ver reseña"; never empty |
| Gateway.SnippetSource | services/geminiService.ts:276-280 | a snippet with a truthy URI gives one source with its title, another snippet none |
| Gateway.SnippetSources | services/geminiService.ts:275-281 | at most one source per snippet, each with a non-empty URI and title |
| Gateway.ChunkSources | services/geminiService.ts:270-283 | every source a chunk contributes has a non-empty URI |
| Gateway.ChunksOf | services/geminiService.ts:267 | the grounding chunks of the first candidate, or none when that path is missing |
| Gateway.FlatSources | services/geminiService.ts:269-283 | every flattened source has a non-empty URI |
| Gateway.FindUri | services/geminiService.ts:287 | the first index carrying the URI, or -1 when none does |
| Gateway.DedupFrom | services/geminiService.ts:286-288 | every kept source is the first source with its URI, and the kept sources' first indices strictly increase |
| Gateway.DedupByUri | services/geminiService.ts:286-288 | keeps each source whose index is the first index of its URI |
| Gateway.DedupUrisDistinct | services/geminiService.ts:286-288 | after de-duplication no URI occurs twice |
| Gateway.DedupKeepsFirstSeen | services/geminiService.ts:286-288 | each kept source is the first input source with its URI, so the first-seen title wins |
| Gateway.DedupKeepsEveryUri | services/geminiService.ts:286-288 | every input URI survives, as its first source |
| Gateway.DedupInOrder | services/geminiService.ts:286-288 | the de-duplicated list is a subsequence of the input |
| Gateway.CollectChunkSources | services/geminiService.ts:270-283 | the loop builds exactly the chunk's sources: its page first, then its snippets in order |
| Gateway.GetNearbyPlaces | services/geminiService.ts:240-299 | on failure the fixed apology and no sources. Otherwise the reply's text (possibly `undefined`) and its flattened, de-duplicated sources; URIs are distinct and non-empty either way |
| Chat.ConcatAppend | components/Chatbot.tsx:55-65 | the running text of two chunk runs is the first run's text followed by the second's |
| Chat.ConcatContainsEachChunk | components/Chatbot.tsx:58-65 | every chunk's text occurs unbroken in the final text |
| Types.JsText | components/Chatbot.tsx:59 | the text a possibly `undefined` string contributes when concatenated or interpolated: its text, or `"undefined"`; used for a chunk without text and for the inline-data fields of an edited image |
| Chat.Concat | components/Chatbot.tsx:55-63 | the running text after a run of chunks: their texts in order |
| Chat.ReplyMessages | components/Chatbot.tsx:52-68 | a guarded send adds one or two model messages. The first holds the full streamed text, or the apology when the stream never started; a second, the apology, comes exactly when the stream broke off |
| Chat.CanSendIsTrimTest | components/Chatbot.tsx:45 | the send guard holds if and only if the trimmed input is non-empty, a session exists and no send is in flight |
| Chat.CanSend | components/Chatbot.tsx:45 | the send guard: the input is not all white space, a session exists and no send is in flight |
| Chat.Chatbot.constructor | components/Chatbot.tsx:8-37 | the log starts with the greeting when the session was created, with the unavailability notice otherwise |
| Chat.Chatbot.SetOpen | components/Chatbot.tsx:78-90 | only the open flag changes |
| Chat.Chatbot.SetInput | components/Chatbot.tsx:126 | only the input changes |
| Chat.Chatbot.AppendReply | components/Chatbot.tsx:52-68 | the log grows by exactly the reply's messages; the placeholder ends holding the concatenation of all chunks |
| Chat.Chatbot.HandleSendMessage | components/Chatbot.tsx:43-72 | a refused send changes nothing. A guarded send sends the untrimmed input, clears it, appends it as a user message followed by the reply messages, and ends with loading off |
| PostForm.InitialLocation | components/PostForm.tsx:24 | the form starts at the clicked point, or at the centre of Iquique when there is none |
| PostForm.Complete | components/PostForm.tsx:92 | the submit guard: a photo and a non-empty breed, description, colour and size |
| PostForm.PostForm.constructor | components/PostForm.tsx:17-25 | a lost report with empty fields, no photo, not generating, at the initial location |
| PostForm.PostForm.SetFields | components/PostForm.tsx:116-175 | the type and the four text fields are set; photo, location and generation are kept |
| PostForm.PostForm.HandlePhotoChange | components/PostForm.tsx:66-72 | the first picked file becomes the photo and its object URL the preview; no file changes nothing |
| PostForm.PostForm.SetLocation | components/PostForm.tsx:51-62 | a click on the form's map or a marker drag sets the location and nothing else |
| PostForm.PostForm.HandleGenerateDescription | components/PostForm.tsx:74-88 | without a photo nothing changes. Success overwrites exactly breed, colour, size and description; failure raises the prefixed alert and keeps them; generation is off afterwards |
| PostForm.PostForm.HandleSubmit | components/PostForm.tsx:90-105 | data is handed over if and only if a photo and every text field are present, and it carries exactly the slots and the preview; otherwise the "complete every field" alert |
| AuthModal.SubmitReturnsToLogin | components/AuthModal.tsx:19-30 | every submit ends on the login form; only submitting the login form asks to log in |
| AuthModal.Next | components/AuthModal.tsx:19-30 | the view after a button: every submit returns to login, each link goes to its form |
| AuthModal.SubmitEffect | components/AuthModal.tsx:19-30 | what a submit asks: login logs in, registration reports success, recovery alerts |
| AuthModal.Offered | components/AuthModal.tsx:54-120 | login shows the recovery and registration links, the other two forms the link back to login |
| AuthModal.EveryViewReachable | components/AuthModal.tsx:54-120 | from any form, every form is reachable with at most two buttons that form shows |
| AuthModal.RenderContent | components/AuthModal.tsx:125-132 | an unknown view tag draws the login form |
| AuthModal.RenderContentShowsView | components/AuthModal.tsx:125-132 | each view draws its own form |
| AuthModal.AuthDialog.constructor | components/AuthModal.tsx:12-13 | the dialog opens on login with the password hidden |
| AuthModal.AuthDialog.HandleFormSubmit | components/AuthModal.tsx:19-30 | register reports success and returns to login; login asks to log in; recovery alerts and returns to login |
| AuthModal.AuthDialog.HandleGoogleLogin | components/AuthModal.tsx:15-17 | the Google button asks to log in |
| AuthModal.AuthDialog.Navigate | components/AuthModal.tsx:54-120 | only a link the current form shows can be followed, and it sets the view to its target form |
| AuthModal.AuthDialog.TogglePassword | components/AuthModal.tsx:49 | password visibility flips; the view is kept |
| Scenarios.NegroMissesNegra | App.tsx:256-258 | the colour filter "Negro" rejects the seeded pug whose colour is "Beige con máscara negra" |
| Scenarios.NegrFindsNegra | App.tsx:256-258 | the stem "Negr" admits that pug |
| Scenarios.SeedFoundCandidates | App.tsx:127 | with a lost report in front of the seed reports, the candidates are the two seeded found reports in store order |
| Scenarios.SeedShownMatches | App.tsx:131 | with the ids `["post_4"]` returned, the one match shown is the seeded found pug |
| Scenarios.SeedSuggestion | App.tsx:125-132 | for such a lost report the request carries the lost summary and the summaries of the two found reports, and the shown matches are the found pug alone |
| Scenarios.LostPugJourney | App.tsx:109-144 | login and a lost-pug report send the two seeded found reports in store order. With the reply `["post_4"]`, the one suggested match is the found pug |

## Left out

- Network calls to the AI service, `fetch` and `FileReader` are outside the model. Each call's outcome is an input value: a reply, a missing field, or a thrown error.
- The prompt texts and model names sent to the service are left out. So are the response schemas and `JSON.parse`; a parsed reply is an input.
- The "top 3 matches" limit exists only in the prompt text. The model, like the code, shows every report whose id comes back.
- The Leaflet maps are left out: the home map, the form's map and marker dragging. Clicks and marker drags arrive as points through `HandleMapClick` and `PostForm.PostForm.SetLocation`.
- Distance computation, marker rendering and all JSX rendering are left out. So are `Header.tsx`, the cards, the toast's auto-dismiss timer and the Markdown renderer that draws the places answer (App.tsx:30, App.tsx:557).
- Asynchronous interleaving is left out. Each handler is one atomic step from the state at its start to the state after its last `await`. The intermediate states ("Publicando...", "Buscando coincidencias...", loading flags set to true) are not observable in the model. So is a second click that lands while a call is pending.
- App.NewPost: `Date.now()` (the id) and `new Date()` (`createdAt`) are two clock reads in the code; the model takes both from one `now` parameter.
- Scenarios.LostPugJourney: requires a clock reading of at least 10. `post_4` would otherwise be the new report's own id, which no real millisecond clock produces.
- `handleCopyToClipboard` (the clipboard API) is left out.
- The catch branches at App.tsx:133-136 and App.tsx:159-162 are not modelled because they cannot be reached. `getSuggestions` and `getNearbyPlaces` catch every error themselves and always return normally.
- Text.LowerChar: lower-cases only the Latin-1 letters (A–Z and À–Þ except ×). The Unicode case mappings of other scripts are not modelled. They do not occur in the seed data or in the form's choices.
- Text.TrimSpec: says nothing about characters outside the slice beyond their being ECMAScript white space, which is exactly what `trim` removes.
- The `.filter(source !== null)` step of `getNearbyPlaces` is not modelled. It never removes anything, because the flattening only ever pushes sources.

## Notes on the code

- The code is followed for the colour filter, even where a user might expect
  otherwise. A colour filter of "Negro" might be expected to find the seeded pug
  "Beige con máscara negra". The filter is a case-insensitive substring test,
  and the colour contains "negra", not "negro". `Scenarios.NegroMissesNegra`
  and `Scenarios.NegrFindsNegra` prove both facts.
- `handleSaveChanges` updates the selected report's copy and then calls
  `handleCloseModal`, which clears the selection. The net effect, as
  modelled, is that nothing is selected afterwards.
- The header's "create report" button sets the form view without checking
  for a user (App.tsx:272). The button is only shown to a signed-in user, so
  `App.ViewController.OpenCreatePost` has no guard.
- The colour filter is not trimmed; the breed filter is trimmed, and then
  only after lower-casing (App.tsx:254-257).
