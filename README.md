# Dr. AI chat core, modelled in Dafny

Dr. AI is a browser chat application for preliminary medical questions. The
patient types, dictates or photographs a question. The app sends it, together
with the conversation so far and the patient's profile, to a hosted language
model (Groq; a Gemini client sits beside it) and shows and reads out the reply.
It keeps several consultations ("sessions") in browser storage, lists them in a
searchable sidebar, and exports the open consultation as a paginated PDF
report.

This project models the logic under that interface:

- the session store of `src/App.jsx`: the session list, the active id, the open
  conversation, creating, selecting and deleting sessions, the sync step and the
  start-up choice. The invariant is that the active id names a stored session.
- the turn rules: the send guard, the image-analysis turn, the image-generation
  classifier and its prompt extraction, and how a settled request appends its
  answer.
- dictation routing into the chat input or the image caption, and the silence
  auto-submit.
- the speech and PDF text cleaners, the preferred-voice choice, and the PDF
  layout bookkeeping (`yPos`, page breaks, page count, footers).
- the sidebar's filter, sort, initials and title fallback (`src/components/Sidebar.jsx`).
- request assembly and error mapping of the two model clients (`src/services/groq.js`,
  `src/services/gemini.js`), including the `data:<mime>;base64,<data>` split of
  RFC 2397, section 3.
- the profile form's edit state machine (`src/components/ProfileModal.jsx`).

How the code becomes Dafny:

- JavaScript's `null`, `undefined` and `""` are all the empty string here,
  because every test the code makes on them is a truthiness test.
- Browser storage is three fields of the `ChatApp.App` class
  (`storedSessions`, `storedActiveId`, `storedUser`).
- The clock, fresh ids, the random draw, the installed voices and each model
  SDK are parameters. An SDK is a function from the request to an outcome.
- `processAI` is asynchronous. It is split in two:
  - `ProcessAI` records a request in flight;
  - `SettleTurn` settles any one of the requests in flight, in any order.
- React effects become explicit methods: `SyncActiveSession` and
  `OnSilenceTimeout`.

Modules, one per file:

| module | file |
|---|---|
| `Wrappers` | `wrappers.dfy` |
| `Seqs` | `seqs.dfy` |
| `Strings` | `strings.dfy` |
| `Types` | `types.dfy` |
| `Sessions` | `sessions.dfy` |
| `Turns` | `turns.dfy` |
| `Sanitize` | `sanitize.dfy` |
| `Transcript` | `transcript.dfy` |
| `Speech` | `speech.dfy` |
| `Report` | `report.dfy` |
| `ChatApp` | `app.dfy` |
| `Sidebar` | `sidebar.dfy` |
| `Groq` | `groq.dfy` |
| `Gemini` | `gemini.dfy` |
| `ProfileModal` | `profile_modal.dfy` |

Where the code and its design description differ, the model follows the code:

- `deleteChat` opens the first remaining session in list order, not the most
  recently updated one.
- `createNewChat` does not write the session list to storage. Only the sync
  step and `deleteChat` write it.
- The sync step recomputes the title from the first user message on every
  change, not only while the title is still the default.
- `App.jsx` imports only the Groq client. The Gemini client is modelled on its
  own.

## Model

| member | source | states |
|---|---|---|
| Sessions.FindIndex | src/App.jsx:92 | None exactly when no session has the id; otherwise the first position holding it, as `findIndex` finds it |
| Sessions.FirstIndexUnique | src/App.jsx:145 | the first position of an id is unique, so `find` and `findIndex` agree |
| Sessions.Without | src/App.jsx:154 | the filtered list is a subsequence of the list, holds every session with another id and none with the deleted id |
| Sessions.WithoutAppend | src/App.jsx:154 | filtering a joined list filters each part, so the filter decides position by position |
| Sessions.WithoutCount | src/App.jsx:154 | a session with another id keeps every copy it has in the list; the deleted id keeps none |
| Sessions.WithoutKeepsOthers | src/App.jsx:153-166 | deleting one id keeps every other id in the list, so a different active id stays valid |
| Sessions.FirstUserText | src/App.jsx:103 | the text of the first message with the user's role, and "" when there is no user message |
| Sessions.Title | src/App.jsx:103 | with first-user text, the title is its first 30 characters (all of it when shorter); without, the previous title, or "New Consultation" when that is empty; never empty |
| Sessions.FirstUserTextStable | src/App.jsx:103 | once a user message with text exists, later messages do not change which text the title is taken from |
| Sessions.TitleStable | src/App.jsx:103 | once the first user message has text, the title stops depending on later messages and on the previous title |
| Sessions.TitleOfLongQuestion | src/App.jsx:103 | a long first question is cut to its first 30 characters |
| Sessions.TitleIgnoresLaterUserMessages | src/App.jsx:103 | an image-only first user message leaves the title to the next user message with text |
| Sessions.SyncedSessions | src/App.jsx:88-110 | no update without an active id, with an unknown id or with unchanged messages; otherwise only the active entry takes the messages, title and time, and every other entry and every id stays as it was |
| Sessions.StartupChoice | src/App.jsx:58-85 | a fresh start exactly when nothing is stored; a stored active id that names a session is resumed; otherwise the first stored session is resumed |
| Turns.BlankIffTrimsEmpty | src/App.jsx:597 | the send guard's blank test is exactly "trims to the empty string" |
| Turns.AnalysisShowsQuery | src/App.jsx:567-577 | the analysis message has text exactly when the caption is not blank, and then shows the tag and the very text sent; a blank caption sends the default analysis prompt |
| Turns.GenerateLeadInsSubsumed | src/App.jsx:510-516 | the two "generate" lead-ins never change the classifier's verdict, since such text already mentions "image" and "generate" |
| Turns.ClassifierIgnoresCase | src/App.jsx:510-516 | the classifier gives the same verdict for a text and its lower-case form |
| Turns.MatchLength | src/App.jsx:520 | the matched phrase length never exceeds the text |
| Turns.StripLeadIns | src/App.jsx:520 | removing the phrases only deletes characters and keeps the others in order |
| Turns.MatchesWholePhrase | src/App.jsx:520 | a lead-in phrase in any case is matched whole where it begins, whatever follows it: no earlier alternative takes a shorter piece |
| Turns.StripDropsPhrase | src/App.jsx:520 | a lead-in phrase in any case is deleted where the scan meets it, and the scan goes on after it |
| Turns.StripKeepsRange | src/App.jsx:520 | a stretch of text at whose every position no phrase matches is kept unchanged |
| Turns.StripKeepsPlain | src/App.jsx:520 | text at whose every position no phrase matches is kept unchanged in front of the rest's result |
| Turns.StripWithoutLeadIns | src/App.jsx:520 | text in which no phrase occurs passes through the removal unchanged |
| Turns.NoMatchWithoutLeadLetter | src/App.jsx:520 | no phrase matches text that does not start with g, c or d in any case |
| Turns.ImagePrompt | src/App.jsx:520-523 | the prompt is "medical illustration" when the text left after removing the phrases is blank; otherwise it is that text with the white space at both ends cut off; never empty, no white space at either end |
| Turns.ImagePromptFromText | src/App.jsx:520-523 | the prompt is "medical illustration" or is made of the request's own characters, in order |
| Turns.PromptOfMole | src/App.jsx:510-523 | "generate image of a mole" is an image request with prompt "of a mole" |
| Turns.MoleIsImageRequest | src/App.jsx:510-516 | "generate image of a mole" is classified as an image request |
| Turns.StripOfMole | src/App.jsx:520 | the removal leaves " of a mole" |
| Turns.TrimOfMole | src/App.jsx:520 | trimming " of a mole" gives "of a mole" |
| Turns.NoLeadInOfMole | src/App.jsx:520 | no phrase occurs in " of a mole" |
| Turns.PromptOfBareRequest | src/App.jsx:520-523 | a bare "generate image" gets the prompt "medical illustration" |
| Turns.RemovalIsSinglePass | src/App.jsx:520 | the removal is one pass: "drdrawaw" keeps the "draw" that deleting the inner "draw" creates |
| Turns.Seed | src/App.jsx:526 | the seed lies in [0, 10000) |
| Sanitize.Keep | src/App.jsx:279 | the filtered text holds exactly the kept characters of the input, in order |
| Sanitize.KeepAppend | src/App.jsx:279 | filtering distributes over concatenation |
| Sanitize.KeepFixedIff | src/App.jsx:279 | filtering leaves a text unchanged exactly when every character is kept |
| Sanitize.StripMarkers | src/App.jsx:279 | no `*`, `#`, `_` or backtick survives, and every other character does |
| Sanitize.IndexOf | src/App.jsx:280 | None exactly when the character is absent; otherwise its first position |
| Sanitize.IndexOfFirst | src/App.jsx:280 | the first position of a character is what IndexOf returns |
| Sanitize.LinkAt | src/App.jsx:280 | a match is `[`, a non-empty name, `](`, a non-empty target and `)`, inside the text |
| Sanitize.CollapseLinks | src/App.jsx:280 | collapsing links never lengthens the text and adds no character |
| Sanitize.LinkCollapses | src/App.jsx:280 | `[name](target)` followed by more text becomes the name followed by the rest collapsed |
| Sanitize.LinkMatches | src/App.jsx:280 | the link pattern matches at the first `]` after the name and the first `)` after the target |
| Sanitize.NoBracketUnchanged | src/App.jsx:280 | text without `[` has no link and is left unchanged |
| Sanitize.SpeechText | src/App.jsx:279-280 | spoken text holds no markdown marker and no character the reply lacks |
| Sanitize.SpokenLink | src/App.jsx:279-280 | a markdown link is read as its name alone |
| Sanitize.PdfText | src/App.jsx:381-383 | report text holds only printable ASCII and newlines, no markdown marker, and keeps the reply's order |
| Sanitize.PdfTextFixedIff | src/App.jsx:381-383 | the cleaning leaves a text unchanged exactly when it is already clean |
| Sanitize.PdfTextIdempotent | src/App.jsx:381-383 | cleaning twice is cleaning once |
| Transcript.FinalsAppend | src/App.jsx:188-194 | the final text of two runs of results is the two final texts concatenated |
| Transcript.NoFinalsNoText | src/App.jsx:188-194 | results with no final fragment give no final text |
| Transcript.CollectTranscripts | src/App.jsx:185-194 | the loop from `resultIndex` collects exactly the final and interim texts of the new results; an index past the end collects nothing |
| Transcript.AppendTranscript | src/App.jsx:198-200 | an empty buffer becomes the new text; otherwise the buffer is kept, then one space, then the new text |
| Transcript.AppendTwice | src/App.jsx:198-200 | two dictated pieces append as the two pieces joined by one space |
| Speech.PreferredVoice | src/App.jsx:285-290 | None exactly when no voice is preferred; otherwise the first preferred voice of the list |
| Speech.MakeUtterance | src/App.jsx:273-298 | the utterance reads exactly the cleaned text (no marker left), belongs to the given message, and uses the first preferred installed voice, or the default voice only when none is preferred |
| Speech.FirstPreferredWins | src/App.jsx:286-290 | a preferred voice is chosen over an earlier voice that is not preferred |
| Report.Break | src/App.jsx:321-328 | a page-break check either leaves the position with room for the height, or adds exactly one page and returns to the top margin |
| Report.DrawAfterBreak | src/App.jsx:347-354 | drawing after a page-break check keeps the layout invariant, loses no page and keeps what was drawn |
| Report.ImageStepValid | src/App.jsx:356-373 | the image step, whether or not the image loads, keeps the layout invariant and never loses a page |
| Report.TextStepValid | src/App.jsx:375-397 | the text step keeps the layout invariant and never loses a page |
| Report.StepValid | src/App.jsx:347-400 | one message's step keeps the layout invariant and never loses a page |
| Report.RenderValid | src/App.jsx:330-400 | the whole report keeps the invariant: at least one page, every item on an existing page with its room, in page order; a prefix of the conversation never needs more pages |
| Report.PageStampInjective | src/App.jsx:409 | different pages get different page stamps |
| Report.StampFooters | src/App.jsx:402-410 | the footer loop gives every page 1..pageCount the disclaimer and "Page i of pageCount" |
| Report.ReportFileNameRoundTrip | src/App.jsx:413 | the export time can be read back from the file name |
| Report.ReportWriter.constructor | src/App.jsx:317-342 | a new writer holds the header layout |
| Report.ReportWriter.CheckPageBreak | src/App.jsx:321-328 | the writer's state moves as Break says, and the result is true exactly when the height does not fit |
| Report.ReportWriter.Put | src/App.jsx:353-354 | the writer's state moves as Draw says |
| Report.ReportWriter.RenderMessage | src/App.jsx:347-400 | the writer's state moves as one message's Step says |
| Report.ExportReport | src/App.jsx:315-414 | the document is the rendered layout with at least one page, every item on an existing page, one footer per page and the timestamped file name |
| Sidebar.FilterByTitle | src/components/Sidebar.jsx:8-10 | the result is a subsequence of the list holding every session whose lower-cased title contains the lower-cased query, and no other |
| Sidebar.FilterAppend | src/components/Sidebar.jsx:8-10 | searching a joined list searches each part, so the search decides position by position |
| Sidebar.FilterCount | src/components/Sidebar.jsx:8-10 | a matching session keeps every copy it has in the list; any other keeps none |
| Sidebar.EmptyQueryKeepsAll | src/components/Sidebar.jsx:8-10 | an empty search keeps every session |
| Sidebar.Insert | src/components/Sidebar.jsx:13 | inserting into a newest-first list keeps it newest first and adds exactly the one session |
| Sidebar.SortByRecency | src/components/Sidebar.jsx:13 | the sorted list is a permutation of the input with timestamps never increasing |
| Sidebar.InsertKeepsTies | src/components/Sidebar.jsx:13 | insertion puts the new session in front of the sessions with its timestamp |
| Sidebar.SortIsStable | src/components/Sidebar.jsx:13 | sessions with the same timestamp keep their relative order |
| Sidebar.Listed | src/components/Sidebar.jsx:8-13 | the sidebar lists the matching sessions newest first, as a rearrangement of the search result |
| Sidebar.ListedCount | src/components/Sidebar.jsx:8-13 | every matching session is listed as often as it is stored, and no other session is listed |
| Sidebar.Split | src/components/Sidebar.jsx:22 | splitting gives at least one piece |
| Sidebar.SplitJoin | src/components/Sidebar.jsx:22 | joining the pieces with spaces gives the name back, and no piece holds a space |
| Sidebar.WordStarts | src/components/Sidebar.jsx:22 | the word starts hold no space and are characters of the name in order |
| Sidebar.FirstCharsAreWordStarts | src/components/Sidebar.jsx:22 | the first characters of the split pieces are exactly the word starts, empty pieces giving nothing |
| Sidebar.Initials | src/components/Sidebar.jsx:20-23 | a missing name gives "Pr"; any result has at most two characters |
| Sidebar.InitialsOfName | src/components/Sidebar.jsx:22 | the initials are the upper-cased first two word starts, each the upper case of a non-space character of the name |
| Sidebar.DisplayTitle | src/components/Sidebar.jsx:103 | the shown title is never empty and is the session's own title when it has one |
| Groq.SystemPromptShape | src/services/groq.js:16-46 | the system prompt starts with the persona and ends with the instructions, and carries the patient context right after the persona exactly when name, age or history is given |
| Groq.ContextBlockStart | src/services/groq.js:19-27 | the context block starts with its header |
| Groq.PromptsDiffer | src/services/groq.js:19-46 | the prompt without a context block does not begin like one with it |
| Groq.ContextShowsFields | src/services/groq.js:19-27 | with context, the prompt shows every field, with "Unknown" or "None provided" for a missing one |
| Groq.InPrompt | src/services/groq.js:19-27 | whatever the context block contains, the system prompt contains |
| Groq.MapAll | src/services/groq.js:57-66 | every history message is mapped, position by position |
| Groq.MapHistory | src/services/groq.js:57-66 | the mapped history keeps the mapped messages in order, never as the system, always as non-empty plain text |
| Groq.MapHistoryMembers | src/services/groq.js:57-66 | a chat message is in the mapped history exactly when it maps a history message with text |
| Groq.MapHistoryAppend | src/services/groq.js:57-66 | mapping a longer history appends the mapping of the new messages |
| Groq.UserParts | src/services/groq.js:68-78 | the user turn's first part is "User Query: " and the text, with an image part exactly when an image is given |
| Groq.ChatMessagesShape | src/services/groq.js:48-83 | the outgoing list is the system message, then the mapped history, then one user message |
| Groq.ModelFor | src/services/groq.js:87 | the vision model is chosen exactly when an image is given |
| Groq.Overloaded | src/services/groq.js:102 | the overloaded message embeds the original error text |
| Groq.MapErrorCases | src/services/groq.js:96-104 | an error maps to the invalid-key message exactly when it mentions "401"; any other error with text keeps that text |
| Groq.Reply | src/services/groq.js:95-104 | a completion gives its content or "No response received.", never empty text; a throw gives the mapped error, never the missing-key error |
| Groq.MissingKeyFirst | src/services/groq.js:11-13 | without a key the result is the missing-key error, whatever the SDK would do, and that error is not remapped |
| Groq.BuildMessages | src/services/groq.js:16-83 | the concatenating and pushing loop builds exactly the specified message list |
| Groq.GenerateMedicalAdvice | src/services/groq.js:10-105 | the client's result is the specified Advice |
| Gemini.ModelFor | src/services/gemini.js:14 | "gemini-1.5-flash" exactly when an image is given, else "gemini-pro" |
| Gemini.NoteBeforeClosing | src/services/gemini.js:29-32 | a prompt ends with the visual note exactly when the note was put in |
| Gemini.PromptShape | src/services/gemini.js:16-32 | the prompt contains "User Query: " and the text, and ends with the visual-analysis sentence exactly when an image is given |
| Gemini.LastSplit | src/services/gemini.js:37 | the position found is the last `;base64,` split, and None means there is none |
| Gemini.ParseDataUrl | src/services/gemini.js:37-43 | a match exactly when the text starts with `data:`, is one line and has a split; the two non-empty parts put back together give the text, and the greedy type part takes the last split |
| Gemini.ParseDataUrlRoundTrip | src/services/gemini.js:37-43 | a data URL built from a one-line type and data without `;` parses back into that type and data |
| Gemini.RequestFor | src/services/gemini.js:14-54 | "Invalid image format." exactly when an image is given and does not parse; otherwise the request has the chosen model, the prompt and the parsed image exactly when one is given |
| Gemini.MapError | src/services/gemini.js:58-69 | every mapped error is the quota, invalid-key or "Gemini Error" message |
| Gemini.MapErrorCases | src/services/gemini.js:61-68 | "403" is checked before "key", and "key" before the generic message, which embeds the text |
| Gemini.FormatErrorSurfaces | src/services/gemini.js:39-67 | the bad-image error surfaces as "Gemini Error: Invalid image format."; an error without text as "Gemini Error: Unknown error occurred" |
| Gemini.Reply | src/services/gemini.js:56-69 | a response gives its text; a throw gives an error that is never the missing-key error |
| Gemini.AdviceGuards | src/services/gemini.js:8-69 | without a key the result is the missing-key error whatever the SDK does; with a key and a malformed image it is the mapped format error |
| ProfileModal.With | src/components/ProfileModal.jsx:14-17 | the named field takes the value and every other field is kept |
| ProfileModal.SameFields | src/components/ProfileModal.jsx:14-17 | profiles that agree on every field are equal |
| ProfileModal.WithLaws | src/components/ProfileModal.jsx:14-17 | writing a field's own value changes nothing, and a second write to a field overrides the first |
| ProfileModal.WithCommutes | src/components/ProfileModal.jsx:14-17 | edits to different fields commute |
| ProfileModal.ProfileForm.constructor | src/components/ProfileModal.jsx:5-7 | the form starts as a read-only copy of the profile |
| ProfileModal.ProfileForm.ReceiveProps | src/components/ProfileModal.jsx:9-12 | a change of profile or visibility resets the form to the profile and leaves edit mode; unchanged props change nothing |
| ProfileModal.ProfileForm.HandleChange | src/components/ProfileModal.jsx:14-17 | exactly the named field of the form changes |
| ProfileModal.ProfileForm.Input | src/components/ProfileModal.jsx:73-121 | a disabled input outside edit mode changes nothing; in edit mode it is HandleChange; a read-only form stays a copy of the profile |
| ProfileModal.ProfileForm.ToggleEdit | src/components/ProfileModal.jsx:26-32 | leaving edit mode reverts the form to the profile; entering it keeps the form |
| ProfileModal.ProfileForm.HandleSubmit | src/components/ProfileModal.jsx:19-24 | the form's data is what is saved, and edit mode ends |
| ProfileModal.ProfileForm.Submit | src/components/ProfileModal.jsx:63 | a submission saves exactly when in edit mode |
| ProfileModal.ProfileForm.SubmitAndClose | src/components/ProfileModal.jsx:19-24 | a saved form becomes the profile and the modal closes read-only; otherwise nothing changes |
| ChatApp.SameIds | src/App.jsx:98-105 | lists with the same ids position by position hold the same ids |
| ChatApp.ShowsAppend | src/App.jsx:537-560 | a question on screen stays there when messages are appended |
| ChatApp.AskedAfterSubmission | src/App.jsx:578-589 | appending a user message that shows a new request keeps every request in flight on screen |
| ChatApp.SendShowsQuestion | src/App.jsx:595-607 | sending keeps every request in flight on screen, the new one included |
| ChatApp.AnalyzeShowsQuestion | src/App.jsx:567-591 | analysing keeps every request in flight on screen, the new image included |
| ChatApp.SilenceShowsQuestion | src/App.jsx:204-212 | the corrected auto-submit and the silence timeout keep every request in flight on screen |
| ChatApp.SettleKeepsAsked | src/App.jsx:537-560 | settling one request keeps the others on screen |
| ChatApp.AutoSubmitAsWrittenHidesQuestion | src/App.jsx:242-249 | the auto-submit as written sends a dictated question that is not on screen |
| ChatApp.LastPastedImage | src/App.jsx:486-499 | None exactly when no pasted item passes both image checks; otherwise the last item that does |
| ChatApp.Answer | src/App.jsx:506-565 | the reply is the bot's, one tick after the clock, with a picture request exactly for an image request (the extracted prompt, a seed below 10000). An image request shows and speaks the "Here is the image you requested" texts for its prompt. A chat request shows and speaks the client's answer; a failed one shows the error's message (or the connection fallback) and speaks the apology, tied to no message. The text is never empty |
| ChatApp.App.constructor | src/App.jsx:58-85 | storage is restored, the start-up choice is made or a new session created, the active id is valid and nothing is in flight |
| ChatApp.App.LoadStored | src/App.jsx:67-84 | the stored list is restored and the start-up choice opened, or a single new session is created when nothing is stored; only the list, the active id, the conversation and the stored id change |
| ChatApp.App.CreateNewChat | src/App.jsx:124-142 | exactly one new session titled "New Consultation" with the greeting goes in front and becomes active; the stored list is not written |
| ChatApp.App.SelectChat | src/App.jsx:144-151 | an unknown id changes nothing; a known one opens that session's messages and becomes active |
| ChatApp.AfterDelete | src/App.jsx:153-166 | the list without the session is stored; deleting another session changes nothing but the list; deleting the active one leaves an active id that names a listed session and is stored |
| ChatApp.App.DeleteChat | src/App.jsx:153-166 | the whole new state is AfterDelete of the old one, and the active id stays valid |
| ChatApp.App.OpenFirstOrNew | src/App.jsx:158-164 | the first remaining session is opened and its id stored, or a new session is created when none remains; nothing else changes |
| ChatApp.App.SyncActiveSession | src/App.jsx:88-117 | the state changes exactly as SyncedSessions says, and the active id stays valid |
| ChatApp.App.SaveProfile | src/App.jsx:119-122 | the profile is replaced and stored, and nothing else changes |
| ChatApp.App.ToggleListening | src/App.jsx:226-237 | listening flips; stopping disarms the silence timer; starting routes dictation to the target |
| ChatApp.App.OnRecognitionEnd | src/App.jsx:215-222 | listening stops and nothing else changes |
| ChatApp.App.OnResult | src/App.jsx:181-213 | a non-empty final text is appended to exactly the buffer dictation writes to; an empty one changes neither; the silence timer is armed |
| ChatApp.App.ProcessAI | src/App.jsx:506-507 | the request joins those in flight with the current profile, and loading starts |
| ChatApp.App.HandleSendMessage | src/App.jsx:595-607 | the state moves as AfterSend: a blank input changes nothing, else the question is shown, cleared and sent |
| ChatApp.App.HandleFile | src/App.jsx:451-461 | an image file is staged with an empty caption and the panel opens; anything else changes nothing |
| ChatApp.App.HandlePaste | src/App.jsx:486-502 | the paste loop stages the last accepted image, or changes nothing |
| ChatApp.App.Capture | src/App.jsx:436-440 | the screenshot is staged with an empty caption |
| ChatApp.App.Retake | src/App.jsx:442-444 | the staged image is dropped |
| ChatApp.App.CloseCamera | src/App.jsx:446-449 | the panel closes and the staged image is dropped |
| ChatApp.App.AnalyzeImage | src/App.jsx:567-591 | the state moves as AfterAnalyze: the image and caption are shown, the staged state is cleared and the query is sent |
| ChatApp.App.AutoSubmit | src/App.jsx:240-257 | the corrected auto-submit: chat dictation is sent like a typed message, caption dictation analyses the image |
| ChatApp.App.AutoSubmitAsWritten | src/App.jsx:240-257 | the auto-submit as written: chat dictation is sent and cleared without being shown |
| ChatApp.App.OnSilenceTimeout | src/App.jsx:204-212 | an armed timer stops listening and runs the corrected auto-submit; a disarmed one changes nothing |
| ChatApp.App.Speak | src/App.jsx:273-308 | the utterance is replaced by the cleaned text with the preferred voice |
| ChatApp.App.OnSpeechStart | src/App.jsx:301 | the utterance's message is marked as being read |
| ChatApp.App.StopSpeaking | src/App.jsx:300-313 | nothing is read any more |
| ChatApp.App.SettleTurn | src/App.jsx:506-565 | one request leaves the flight, its Answer is appended to the open conversation and spoken, loading ends, and every other request stays on screen |

## Left out

- Browser storage and JSON: modelled as three fields holding values. The
  "messages unchanged" test of the sync step (src/App.jsx:96) is sequence
  equality.
- `crypto.randomUUID`, `Date.now` and `Math.random` are parameters. Fresh ids
  are assumed non-empty.
- The three-second silence timer, the one-second delay before an image reply,
  and the speech recognition and synthesis engines are not modelled as time.
  Their callbacks are explicit methods.
- The webcam, `FileReader` and drag events: a file arrives already read as a
  data URL. The readers of a paste are assumed to finish in order.
- Rendering, animation, scrolling, modal visibility and the window-width
  sidebar toggling: presentation only.
- jsPDF drawing, `splitTextToSize` and `getImageProperties`: the line count and
  the image height are opaque function parameters. The floating-point height
  scaling is not modelled.
- `encodeURIComponent` and the picture URL: a generated image is kept as its
  request parts (prompt, size, seed, model).
- The Groq and Gemini SDKs and the network: each is a function from the request
  to an outcome. Sampling settings and the `stop: null` field of the Groq
  request are not modelled.
- Gemini's `response.text()` failing: treated as an SDK throw.
- `toLowerCase` and `toUpperCase` map ASCII letters only. Other Unicode case
  mappings are not modelled.
- Sessions.Title, Sidebar.Initials: strings are sequences of Unicode scalar
  values, while JavaScript's `slice`, `substring` and `n[0]` count UTF-16 code
  units. A character outside the Basic Multilingual Plane, such as an emoji,
  counts once here and twice in the source. So a title of such characters keeps
  up to 30 of them here and 15 in the source, and an initial of one is the
  whole character here and a lone surrogate in the source.
- `formatDate`: locale date formatting is not modelled.
- The profile reset effect compares profiles by value. The source compares
  object identity, so saving an identical profile also resets the form there.
- The loading flag is cleared by the first request to settle, even when other
  requests are still in flight, as in the source.
- ChatApp.App.OnSilenceTimeout: runs the corrected `AutoSubmit` (see
  Findings), not `latestAutoSubmit` as written at src/App.jsx:242-249. The
  code as written is ChatApp.App.AutoSubmitAsWritten, and
  ChatApp.AutoSubmitAsWrittenHidesQuestion shows where the two differ.
- ChatApp.App.SelectChat: does not keep requests in flight on screen. A reply
  lands in whichever conversation is open when it settles, so it is not a class
  invariant.

## Findings

| source | as written | input that shows it | evidently intended | confidence | as-written member | corrected member |
|---|---|---|---|---|---|---|
| src/App.jsx:242-249 | the silence auto-submit of dictated chat text calls `processAI` and clears the input, but never adds the user's message to the conversation | dictate "I have a rash" into the chat input and stay silent for three seconds while the conversation holds only the greeting: the request is in flight and no user message shows it | send it the way `handleSendMessage` does, showing the question first | not executed | ChatApp.AutoSubmitAsWrittenHidesQuestion | ChatApp.SilenceShowsQuestion |
