# convo-orchestrator in Dafny

A model of the logic under the markup of convo-orchestrator. The application lets two AI models talk to each other while a person steers the conversation. The model covers these parts:

- **Edge Functions.**
  - `ai-chat` relays a conversation to one of seven vendor APIs and stores the reply.
  - `start-session` replaces the caller's active AI configuration and opens a chat session.
- **Socket client.** The socket handle holder and the provider catalog shared by the forms.
- **Stream page.** The per-slot (model A / model B) state the page builds from socket events.
- **Transcript export.** Filtering, the export record, and the text, CSV and Markdown renderings. This includes a CSV reader that the written CSV is proved to round-trip through.
- **Forms.** The settings dialog and the model-configuration card.
- **Session management.** Search and delete in the saved-sessions list.
- **Keyboard shortcuts.** The key-string builder and handler dispatch, and the grouped shortcut reference.
- **Cost tracker.** The elapsed-time label.

Everything outside the code is a parameter:

- the network is a function from request to outcome;
- the database is an in-memory class whose tables are sequences;
- each clock reading is a value the caller passes in;
- date localisation is a `localize` function;
- the outcome of each unchecked database call is a boolean.

State that the source changes in place is a `class` with `modifies` clauses: the tables, the socket holder, the page state and the form states. Each method is tied to a pure function of the old state, and the properties are proved about those functions.

Modules, one per source file:

- `AiChat`: `supabase/functions/ai-chat/index.ts`
- `StartSession`: `supabase/functions/start-session/index.ts`
- `StreamView`: `src/pages/Index.tsx`
- `Export`: `src/components/ExportOptions.tsx`
- `Socket`: `src/lib/socket.ts`
- `SettingsModal`: `src/components/SettingsModal.tsx`
- `ModelConfigPanel`: `src/components/ModelConfigPanel.tsx`
- `SessionManagement`: `src/components/SessionManagement.tsx`
- `KeyboardShortcuts`: `src/components/KeyboardShortcuts.tsx`
- `CostTracker`: `src/components/CostTracker.tsx`

Supporting modules:

- `Api`: the row shapes of `src/lib/api.ts`.
- `Tables`: the Supabase tables.
- `Js`: JavaScript values, property access that throws, truthiness and `String()`.
- `Csv`: RFC 4180 section 2 fields and records.
- `Text`, `Seqs` and `Wrappers`: string, sequence and Option/Result helpers.

Where the design description and the code differ, the model follows the code:

- `ai-chat` has no paused-session check and does not validate the provider or `modelType` against the catalog.
- An unsupported provider surfaces as a 500 carrying the thrown message, not as a 400.
- The result of the message insert is not checked: the reply is 200 whether or not the row was stored.
- The `start-session` deactivation result is not checked either; `StartSession.FailedDeactivationBreaksLookup` shows what follows when it silently fails.
- The Markdown speaker labels are the emoji code points the source means (👤, 🤖, ⚙️). The file as stored shows them double-encoded.

## Model

| member | source | states |
|---|---|---|
| AiChat.ResolveProvider | supabase/functions/ai-chat/index.ts:65-84 | a name resolves exactly when it is one of the seven `case` labels; the adapter it reaches answers to that name; any other name fails with `Unsupported provider: ` followed by the name |
| AiChat.ResolveProviderName | supabase/functions/ai-chat/index.ts:66-80 | every adapter is reached by its own name, so no two names share an adapter |
| AiChat.UnsupportedProviderMakesNoCall | supabase/functions/ai-chat/index.ts:81-83 | an unknown provider throws `Unsupported provider: <p>` and no request is sent |
| AiChat.NameReachesItsAdapter | supabase/functions/ai-chat/index.ts:65-84 | each of the seven names sends exactly the request its own adapter builds, and returns what that adapter makes of the outcome |
| AiChat.CallAIProvider | supabase/functions/ai-chat/index.ts:65-84 | a request is sent exactly for the seven supported names; any other name sends nothing and fails with `Unsupported provider: ` and the name; a sent request goes to an `https://` URL and its body carries the conversation's texts in order |
| AiChat.Endpoint | supabase/functions/ai-chat/index.ts:86-248 | every adapter posts to an `https://` URL, and Google's URL ends with the API key |
| AiChat.RequestHeaders | supabase/functions/ai-chat/index.ts:86-248 | every adapter sends `Content-Type: application/json`; an `Authorization` header is sent exactly by the Bearer adapters and `x-api-key` exactly by Anthropic |
| AiChat.Body | supabase/functions/ai-chat/index.ts:86-248 | the body has Google's `contents` form exactly for Google; every other body names the requested model; every body carries the conversation's texts in order |
| AiChat.BuildRequest | supabase/functions/ai-chat/index.ts:86-248 | the adapter's request goes to an `https://` URL with the JSON content type, and its body carries the conversation's texts in order |
| AiChat.GoogleRole | supabase/functions/ai-chat/index.ts:164 | the role is `user` or `model`, and it is `user` exactly when the message's role is `user` |
| AiChat.GoogleContents | supabase/functions/ai-chat/index.ts:162-165 | there is one entry per message, in order; each has the message content as its only part and the mapped role |
| AiChat.GoogleKeepsTexts | supabase/functions/ai-chat/index.ts:161-166 | Google's `contents` carries exactly the conversation's texts, in order |
| AiChat.EnvelopeKeepsConversation | supabase/functions/ai-chat/index.ts:86-248 | every adapter's body carries the whole conversation: the same texts, the same number, the same order |
| AiChat.EnvelopeRoles | supabase/functions/ai-chat/index.ts:86-248 | every adapter but Google passes the turns through unchanged; Google keeps one entry per turn and maps each role to `user` or `model`, `user` exactly for `user` |
| AiChat.EnvelopeCredentialsAndLimits | supabase/functions/ai-chat/index.ts:86-248 | the Bearer adapters send `Authorization: Bearer <key>` first; Anthropic sends `x-api-key` and `max_tokens` 1000; Google puts model and key in the URL and sends no credential header; every other body names the model; the chat-completion and Qwen bodies carry `max_tokens` 1000 and temperature 0.7 |
| AiChat.NonOkNeverSucceeds | supabase/functions/ai-chat/index.ts:101-104 | a non-ok reply never yields a completion, whatever its body |
| AiChat.ErrorDetail | supabase/functions/ai-chat/index.ts:101-104 | reading the error detail throws exactly when the body is `null` or `undefined` |
| AiChat.ErrorText | supabase/functions/ai-chat/index.ts:101-104 | for a body that is not nullish the thrown message starts with the vendor prefix; for a nullish body it is the engine's TypeError for reading `error` (Qwen: `message`) |
| AiChat.Interpret | supabase/functions/ai-chat/index.ts:101-107 | a fetch or parse failure is passed on as thrown; a value is returned only for an ok reply |
| AiChat.ExtractPath | supabase/functions/ai-chat/index.ts:106-247 | every success path reads index 0 of an array and ends at `text` or `content` |
| AiChat.NonOkMessage | supabase/functions/ai-chat/index.ts:102-104 | for a non-null error body the thrown message is never empty and starts with the vendor prefix, followed by the vendor's message, or by `Unknown error` when that message is falsy |
| AiChat.NonOkStringMessage | supabase/functions/ai-chat/index.ts:220-222 | a non-empty string message is used verbatim; Qwen reads `data.message`, the others `data.error.message` |
| AiChat.QwenReadsTopLevelMessage | supabase/functions/ai-chat/index.ts:220-222 | a body holding only a top-level `message` gives Qwen that message |
| AiChat.OthersIgnoreTopLevelMessage | supabase/functions/ai-chat/index.ts:102-104 | the same body gives OpenAI `Unknown error` |
| AiChat.NullErrorBodyThrowsTypeError | supabase/functions/ai-chat/index.ts:102-104 | a `null` error body makes the error path itself throw a TypeError that has no vendor prefix |
| AiChat.SuccessExtracts | supabase/functions/ai-chat/index.ts:106-247 | on success each adapter returns exactly the value at its own path: `choices[0].message.content`, `content[0].text`, `candidates[0].content.parts[0].text` or `output.choices[0].message.content` |
| AiChat.SuccessWithoutChoicesThrows | supabase/functions/ai-chat/index.ts:106 | a successful reply without `choices` throws the engine's TypeError for reading `'0'` of undefined |
| AiChat.SelectModel | supabase/functions/ai-chat/index.ts:40 | `A` picks `model_a`; every other value picks `model_b` |
| AiChat.HandleChat | supabase/functions/ai-chat/index.ts:21-62 | no user gives 401 and no lookup or request; no single active configuration gives 400 and no request; otherwise the one request `callAIProvider` sends; a throw gives 500 with its message and no row; success gives 200 with the response and the selected model, and appends exactly one row `(sessionId, modelType, response)` when the insert takes effect; other tables are never touched |
| Tables.ActiveRows | supabase/functions/ai-chat/index.ts:29-34 | the caller's rows with `is_active` set: every one is in the table and active for that user |
| Tables.LookupActive | supabase/functions/ai-chat/index.ts:29-34 | `.single()` finds a row exactly when the user has exactly one active configuration, and that row is the user's and active |
| Tables.ActiveRowsAppend | supabase/functions/start-session/index.ts:35-46 | an appended row joins its owner's active rows when it is active; every other user's active rows stay as they were |
| Tables.RowsOfAppend | supabase/functions/start-session/index.ts:35-46 | an appended row joins only its owner's rows |
| StartSession.Deactivated | supabase/functions/start-session/index.ts:29-32 | same length; every row of the caller is inactive with all other columns kept; every other row is unchanged |
| StartSession.DeactivatedClearsUser | supabase/functions/start-session/index.ts:29-32 | after the update the caller has no active configuration |
| StartSession.DeactivatedKeepsOthers | supabase/functions/start-session/index.ts:29-32 | another user's rows and active rows are unchanged |
| StartSession.NewConfiguration | supabase/functions/start-session/index.ts:37-44 | the inserted row is active, belongs to the caller and copies provider, key and both models from the request |
| StartSession.StartKeepsSingleActive | supabase/functions/start-session/index.ts:29-46 | deactivate then insert leaves the caller with exactly the new row active, and keeps "at most one active configuration per user" |
| StartSession.ChatFindsNewConfiguration | supabase/functions/start-session/index.ts:29-46 | after that, `ai-chat`'s `.single()` lookup finds exactly the new configuration |
| StartSession.FailedDeactivationBreaksLookup | supabase/functions/start-session/index.ts:29-46 | for any table in which the caller already has an active row, inserting the new active row without the deactivation taking effect gives the caller one more active row, at least two, and `ai-chat` then finds no configuration |
| StartSession.HandleStartSession | supabase/functions/start-session/index.ts:21-76 | no user gives 401 with both tables unchanged; a configuration insert error gives 400 with its message and no session, the deactivation kept; a session insert error gives 400 with the new configuration kept; success appends the session bound to the new configuration and returns both; other users' rows never change; with a working update the single-active rule is kept and the new row is the one found |
| StreamView.PerSlot.Set | src/pages/Index.tsx:49 | `{ ...prev, [slot]: v }` changes that slot and keeps the other |
| StreamView.Step | src/pages/Index.tsx:42-77 | an event about one slot, or about none, leaves the other slot unchanged; no event removes a message; only a session update changes the session state |
| StreamView.Run | src/pages/Index.tsx:29-95 | a run of events never removes a message from either slot |
| StreamView.PartialChunkAppends | src/pages/Index.tsx:62-67 | a non-final chunk appends to its slot's buffer; messages, typing flags and the other slot are unchanged |
| StreamView.FinalChunkCompletes | src/pages/Index.tsx:45-61 | a final chunk appends exactly one `ai` message for its slot, holding buffer plus chunk; earlier messages keep their order; the buffer empties; typing turns off; the other slot is unchanged |
| StreamView.TypingSetsOnlyItsFlag | src/pages/Index.tsx:71-73 | a typing event sets only its own slot's flag |
| StreamView.StepLeavesOtherSlot | src/pages/Index.tsx:42-77 | an event about one slot, or about none, leaves the other slot's messages, buffer and flag unchanged |
| StreamView.StepLocal | src/pages/Index.tsx:42-73 | a slot's next state depends only on that slot's current state |
| StreamView.EventsFor | src/pages/Index.tsx:42-73 | an order-preserving subsequence of the stream holding exactly the events about that slot |
| StreamView.RunSlotIndependent | src/pages/Index.tsx:42-73 | however the two streams interleave, a slot ends as if it had seen only its own events |
| StreamView.RunConcat | src/pages/Index.tsx:29-95 | running two event sequences one after the other is running their concatenation |
| StreamView.RunPartials | src/pages/Index.tsx:62-67 | a run of non-final chunks for one slot appends their text to that slot's buffer and changes nothing else |
| StreamView.StreamDelivers | src/pages/Index.tsx:42-69 | partial chunks then a final one deliver one message with the whole streamed text, and leave the buffer empty |
| StreamView.ResetEmptiesBothSlots | src/pages/Index.tsx:103-107 | a successful `initSession` leaves both slots with no messages, empty buffers and typing off, and keeps the session state |
| StreamView.Reset | src/pages/Index.tsx:103-107 | both slots are empty with typing off; the session state and the connection flag are kept |
| StreamView.ChatView.constructor | src/pages/Index.tsx:11-25 | the page starts disconnected, with empty slots and no session |
| StreamView.ChatView.OnConnect | src/pages/Index.tsx:32-35 | the new state is the reducer step for `connect` |
| StreamView.ChatView.OnDisconnect | src/pages/Index.tsx:37-40 | the new state is the reducer step for `disconnect` |
| StreamView.ChatView.OnMessageChunk | src/pages/Index.tsx:42-69 | the new state is the reducer step for the chunk |
| StreamView.ChatView.OnTyping | src/pages/Index.tsx:71-73 | the new state is the reducer step for the typing event |
| StreamView.ChatView.OnSessionUpdate | src/pages/Index.tsx:75-77 | the new state is the reducer step for the session update |
| StreamView.ChatView.HandleConfigSubmit | src/pages/Index.tsx:97-114 | without a socket it resolves at once and changes nothing; on success both slots reset and it resolves; on failure the state is unchanged and it rejects with the server's error, or `Failed to initialize session` when that is missing or empty |
| Socket.Connection.constructor | src/lib/socket.ts:7-10 | a new connection starts connected |
| Socket.Connection.Disconnect | src/lib/socket.ts:21 | afterwards the connection is not connected |
| Socket.SocketHolder.constructor | src/lib/socket.ts:3 | the handle starts null and no connection has been made |
| Socket.SocketHolder.InitSocket | src/lib/socket.ts:5-13 | it returns the held handle; an existing one is returned with no new connection; otherwise exactly one new, connected handle is created and kept |
| Socket.SocketHolder.GetSocket | src/lib/socket.ts:15-17 | it returns the current handle, null before any init and after a disconnect |
| Socket.SocketHolder.DisconnectSocket | src/lib/socket.ts:19-24 | the held connection is disconnected and the handle cleared; with no handle nothing happens; no connection is created |
| Socket.SlotName | src/lib/socket.ts:29 | each slot has a one-letter name, and only slot A's is `A` |
| Socket.FindProvider | src/components/SettingsModal.tsx:36 | `AI_PROVIDERS.find` returns a catalog entry with the value sought, and returns nothing exactly when no provider has that value |
| Socket.FindIn | src/components/SettingsModal.tsx:36 | `find` returns an entry with the value sought, and returns nothing exactly when no entry has it |
| Socket.FindInDistinct | src/components/SettingsModal.tsx:36 | with distinct values, looking up the value at index i finds that very entry |
| Socket.CatalogMatchesDispatcher | src/lib/socket.ts:48-135 | the catalog's provider values are the seven names `callAIProvider` handles, in its order |
| Socket.CatalogAgreesWithDispatch | src/lib/socket.ts:48-135 | a name has a catalog entry exactly when the dispatcher has an adapter for it |
| Socket.CatalogProvidersDistinct | src/lib/socket.ts:48-135 | the provider values are pairwise distinct |
| Socket.CatalogModelsNonEmpty | src/lib/socket.ts:48-135 | every provider lists at least one model, so `models[0]` is always defined |
| Socket.CatalogModelsDistinct | src/lib/socket.ts:48-135 | model values are distinct within every provider |
| Socket.FirstProvidersDistinct | src/lib/socket.ts:49-93 | model values are distinct within the first four providers |
| Socket.LastProvidersDistinct | src/lib/socket.ts:94-114 | model values are distinct within the fifth and sixth providers |
| Socket.OpenRouterModelsDistinct | src/lib/socket.ts:115-134 | OpenRouter's model values are distinct |
| Export.FilterMessages | src/components/ExportOptions.tsx:56-59 | `all` returns the list unchanged; any other filter keeps only messages of that type, in their original order |
| Export.FilterMessagesKeeps | src/components/ExportOptions.tsx:56-59 | a message is exported exactly when it is in the list and passes the filter |
| Export.SessionInfoOf | src/components/ExportOptions.tsx:66-72 | every `session?.` field is absent without a session, and otherwise the session's own value |
| Export.ExportMessage | src/components/ExportOptions.tsx:80-91 | with timestamps on, the exported message gives back the original row; `model_info` appears exactly with `includeModelInfo`, and `is_ai` is set exactly when the type is not `user` |
| Export.GenerateExportData | src/components/ExportOptions.tsx:61-95 | metadata is present exactly with `includeMetadata`, and `message_count` is then the number of exported messages; messages are the filtered list in order, each keeping id, type and content; `created_at` appears exactly with `includeTimestamps`; model info appears exactly with `includeModelInfo`, and `is_ai` is set exactly when the type is not `user` |
| Export.CostFlagIgnored | src/components/ExportOptions.tsx:61-95 | `includeCostData` has no effect on the export |
| Export.ExportRestores | src/components/ExportOptions.tsx:61-95 | with metadata and timestamps on, the export records the session id under `metadata.session.id`, and the exported messages, rebuilt with that id, are exactly the filtered rows in order |
| Export.Speaker | src/components/ExportOptions.tsx:113-115 | one of four labels, each in both directions: `User` exactly for `user`, `Model A` exactly for `A`, `Model B` exactly for `B`, `System` exactly for every other type |
| Export.ExportAsText | src/components/ExportOptions.tsx:102-127 | the `forEach` loop produces exactly the text document |
| Export.TextDocument | src/components/ExportOptions.tsx:102-127 | with metadata the text opens with `Session: `; without metadata and messages it is empty |
| Export.TextLayout | src/components/ExportOptions.tsx:105-123 | without metadata the text is the message blocks alone; with it the text opens with `Session: `; each block is speaker, optional ` (date)`, `:` and a line break, then the content, then a blank line |
| Export.TextBlockShape | src/components/ExportOptions.tsx:117-122 | a message block starts with its speaker and ends with its content and two line breaks |
| Export.TextHeaderShape | src/components/ExportOptions.tsx:105-110 | the metadata header opens with `Session: ` |
| Export.CsvHeaders | src/components/ExportOptions.tsx:130-132 | `Index,Speaker,Content`, then `Timestamp` and `Model Type` when enabled, in that order |
| Export.CsvDocument | src/components/ExportOptions.tsx:129-159 | the CSV opens with the header record and ends with a line break |
| Export.CsvRow | src/components/ExportOptions.tsx:141-152 | each row has as many fields as the header |
| Export.CsvValues | src/components/ExportOptions.tsx:141-152 | what a reader should find in a row: position, speaker, content, then timestamp and type when enabled |
| Export.CsvRows | src/components/ExportOptions.tsx:136-155 | one row per message |
| Export.ExportAsCsv | src/components/ExportOptions.tsx:129-159 | the `push`/`forEach` loops produce exactly the CSV document |
| Export.CsvRecordShape | src/components/ExportOptions.tsx:141-152 | every record has as many fields as the header, and its first field spells its 1-based position |
| Export.CsvRoundTrip | src/components/ExportOptions.tsx:129-159 | reading the written CSV back as RFC 4180 section 2 records gives the headers and, per message, its values, content included, whatever quotes or commas it holds; this requires timestamps and types without quotes, which the code does not escape |
| Export.CsvShapes | src/components/ExportOptions.tsx:129-159 | written records and expected values have the same, non-zero, number of fields |
| Export.CsvFieldsEncode | src/components/ExportOptions.tsx:141-152 | every written field encodes its expected value |
| Export.HeadersBare | src/components/ExportOptions.tsx:130-134 | header names are written bare and read back as themselves |
| Export.RowEncodes | src/components/ExportOptions.tsx:141-152 | each row field reads back as its value: a bare index, then quoted speaker, escaped content, timestamp and type |
| Export.ExportAsMarkdown | src/components/ExportOptions.tsx:161-188 | the `forEach` loop produces exactly the Markdown document |
| Export.MarkdownDocument | src/components/ExportOptions.tsx:161-188 | with metadata the Markdown opens with `# `; without metadata and messages it is empty |
| Export.MarkdownBlockEnds | src/components/ExportOptions.tsx:177-183 | each Markdown block ends with the content, a blank line and a horizontal rule |
| Export.FileName | src/components/ExportOptions.tsx:199-217 | a name exactly for the four formats, made of `ai-steering-session-`, the first eight characters of the id and the format as extension; every other format fails with `Unsupported format` |
| Export.FileNamesDistinct | src/components/ExportOptions.tsx:199-217 | different formats of one session download under different names |
| Export.HandleExport | src/components/ExportOptions.tsx:190-244 | nothing without a session; an unknown format fails; otherwise it downloads the format's rendering of the export record under the format's file name |
| Export.ClipboardAsWritten | src/components/ExportOptions.tsx:246-253 | as written: pretty JSON for `json`, and compact JSON for every other format |
| Export.ClipboardSkipsText | src/components/ExportOptions.tsx:249-253 | as written, a `txt` copy never carries the text rendering |
| Export.Clipboard | src/components/ExportOptions.tsx:246-253 | corrected: pretty JSON for `json`, and the text rendering otherwise |
| Export.ClipboardMatchesTextDownload | src/components/ExportOptions.tsx:249-253 | corrected, a `txt` copy holds exactly the text the `txt` download holds |
| Csv.Escape | src/components/ExportOptions.tsx:144 | escaping never shortens a text |
| Csv.Record | src/components/ExportOptions.tsx:154 | a record is never empty and ends with a line break |
| Csv.Document | src/components/ExportOptions.tsx:134-155 | a document is empty exactly when it has no records; otherwise it opens with the first record and ends with a line break |
| Csv.EscapeNoQuote | src/components/ExportOptions.tsx:144 | a text without quotes is left as it was |
| Csv.ParseQuoted | src/components/ExportOptions.tsx:144 | a quoted field reader that always consumes input |
| Csv.ParsePlain | src/components/ExportOptions.tsx:142 | an unquoted field and its rest make up the input, and the field is bare |
| Csv.ParseQuotedEscape | src/components/ExportOptions.tsx:144 | an escaped and closed value reads back as itself (RFC 4180 section 2, item 7 undone) |
| Csv.ParseFieldEncoded | src/components/ExportOptions.tsx:141-145 | an encoded field followed by a comma or line break reads back as its value |
| Csv.ParseRecordEncoded | src/components/ExportOptions.tsx:154 | a record joined from encoded fields reads back as the values |
| Csv.ParseDocumentEncoded | src/components/ExportOptions.tsx:134-155 | a document of encoded records reads back as the table of values |
| Csv.QuotedWithoutQuotes | src/components/ExportOptions.tsx:143 | a quoted but unescaped field reads back when it holds no quote |
| Csv.DigitsAreBare | src/components/ExportOptions.tsx:142 | a number written bare reads back as itself |
| SettingsModal.DefaultsWithTwoModels | src/components/SettingsModal.tsx:43-44 | with two or more named models the defaults are the first two, and they differ when the values are distinct |
| SettingsModal.DefaultsWithOneModel | src/components/SettingsModal.tsx:43-44 | with one model both slots get it; with none both stay empty |
| SettingsModal.CatalogDefaultsDiffer | src/components/SettingsModal.tsx:40-45 | every catalog provider's defaults are its first two models, which differ |
| SettingsModal.DefaultModels | src/components/SettingsModal.tsx:43-44 | with no models both defaults are empty; otherwise model A is the first model, and model B is model A or one of the provider's models |
| SettingsModal.Complete | src/components/SettingsModal.tsx:52 | the form is complete exactly when provider, key and both models are non-empty |
| SettingsModal.SettingsForm.constructor | src/components/SettingsModal.tsx:25-32 | empty fields, not submitting, no provider selected |
| SettingsModal.SettingsForm.SelectProvider | src/components/SettingsModal.tsx:35-47 | sets the provider and keeps the key; on a change it selects the catalog entry or clears it; for a known provider with a model empty it fills both defaults; otherwise the models stay |
| SettingsModal.SettingsForm.SetApiKey | src/components/SettingsModal.tsx:126 | only the key changes |
| SettingsModal.SettingsForm.SetModelA | src/components/SettingsModal.tsx:140 | only model A changes |
| SettingsModal.SettingsForm.SetModelB | src/components/SettingsModal.tsx:162 | only model B changes |
| SettingsModal.SettingsForm.BeginSubmit | src/components/SettingsModal.tsx:49-63 | a validation error exactly when a field is empty, with nothing started; otherwise it sends the complete form and marks it submitting |
| SettingsModal.SettingsForm.FinishSubmit | src/components/SettingsModal.tsx:62-77 | `onClose` is called exactly when the submit resolved; submitting ends either way |
| SettingsModal.SettingsForm.HandleClose | src/components/SettingsModal.tsx:80-84 | `onClose` is called exactly when not submitting |
| SettingsModal.XaiDefaults | src/components/SettingsModal.tsx:40-45 | choosing xAI defaults to `grok-beta` and `grok-2` |
| SettingsModal.QwenListed | src/components/SettingsModal.tsx:36 | Qwen is found in the catalog |
| ModelConfigPanel.Merge | src/components/ModelConfigPanel.tsx:69-70 | every supplied key overwrites its field and every other field is kept |
| ModelConfigPanel.MergeLaws | src/components/ModelConfigPanel.tsx:69-70 | the empty update changes nothing; an update applied twice acts once; two updates in a row act as one where the later key wins |
| ModelConfigPanel.ProviderChoice | src/components/ModelConfigPanel.tsx:134 | choosing a provider sets it and clears the model in the same update |
| ModelConfigPanel.ConfiguredAfterProviderChoice | src/components/ModelConfigPanel.tsx:75 | `isConfigured` is false right after a provider is chosen; once a catalog provider's first model is filled in, it holds exactly when an API key is set |
| ModelConfigPanel.ModelConfigCard.constructor | src/components/ModelConfigPanel.tsx:36-44 | the initial draft, no provider, nothing reported |
| ModelConfigPanel.ModelConfigCard.HandleConfigUpdate | src/components/ModelConfigPanel.tsx:69-73 | the draft becomes the merge, and exactly that object is reported once |
| ModelConfigPanel.ModelConfigCard.ProviderEffect | src/components/ModelConfigPanel.tsx:54-67 | selects the catalog entry; for a known provider with no model it sets the first model and reports it; otherwise no change and no report |
| ModelConfigPanel.ModelConfigCard.SelectProvider | src/components/ModelConfigPanel.tsx:134 | re-choosing the same provider only clears the model and reports once; a new catalog provider ends with its first model, after reporting the cleared draft and then the filled one; an unknown provider ends with no model and no selection |
| ModelConfigPanel.ModelConfigCard.OnConfigProp | src/components/ModelConfigPanel.tsx:46-67 | a null prop changes nothing; a prop with the same provider replaces the draft wholesale, unreported, and selects its provider; a prop with a new catalog provider and an empty model ends with that provider's first model, reported once; any other new-provider prop is kept as given, unreported |
| ModelConfigPanel.FirstModelsNamed | src/components/ModelConfigPanel.tsx:62 | every catalog provider's first model has a non-empty value, so the auto-selected model is never empty |
| SessionManagement.SearchFilter | src/components/SessionManagement.tsx:49-55 | an order-preserving subsequence of the sessions in which every session matches |
| SessionManagement.Matches | src/components/SessionManagement.tsx:50-53 | the empty query matches every session, untitled ones included |
| SessionManagement.SearchKeepsExactly | src/components/SessionManagement.tsx:50-53 | a session is listed exactly when it is loaded and its lower-cased title or id contains the lower-cased query |
| SessionManagement.EmptyQueryKeepsAll | src/components/SessionManagement.tsx:50-53 | an empty query lists every session, untitled ones included |
| SessionManagement.SearchIgnoresCase | src/components/SessionManagement.tsx:51-52 | the query's case does not matter |
| SessionManagement.LowerIdempotent | src/components/SessionManagement.tsx:51-52 | lower-casing twice is lower-casing once |
| SessionManagement.WithoutId | src/components/SessionManagement.tsx:87 | an order-preserving subsequence that has no session with that id |
| SessionManagement.WithoutIdKeepsOthers | src/components/SessionManagement.tsx:87 | deleting removes exactly the sessions with that id |
| SessionManagement.DisplayTitle | src/components/SessionManagement.tsx:159 | never empty; the title when it is non-empty, otherwise `Session ` and the first eight characters of the id |
| SessionManagement.SessionList.constructor | src/components/SessionManagement.tsx:36-38 | empty list, empty query |
| SessionManagement.SessionList.SetQuery | src/components/SessionManagement.tsx:49-55 | the query changes and the visible list is the filter of the loaded list |
| SessionManagement.SessionList.LoadSessions | src/components/SessionManagement.tsx:57-71 | a fetched list replaces the loaded one and is filtered again; a failed fetch changes nothing |
| SessionManagement.SessionList.HandleSessionDelete | src/components/SessionManagement.tsx:82-99 | after a successful delete the list loses exactly that id; a failed delete changes nothing; the visible list stays filtered |
| KeyboardShortcuts.CategoriesOfShortcuts | src/components/KeyboardShortcuts.tsx:18-48 | the headings are Session, Navigation, Chat and Interface, in that order |
| KeyboardShortcuts.Categories | src/components/KeyboardShortcuts.tsx:48 | each category once, and exactly the categories the shortcuts use |
| KeyboardShortcuts.CategoryRuns | src/components/KeyboardShortcuts.tsx:18-45 | the list's category column is the Session, Navigation and Chat runs followed by five Interface entries |
| KeyboardShortcuts.DedupSessionRows | src/components/KeyboardShortcuts.tsx:18-24 | the Session run has one distinct category |
| KeyboardShortcuts.DedupUpToNavigation | src/components/KeyboardShortcuts.tsx:18-30 | up to the Navigation run the distinct categories are Session, Navigation |
| KeyboardShortcuts.DedupUpToChat | src/components/KeyboardShortcuts.tsx:18-37 | up to the Chat run they are Session, Navigation, Chat |
| KeyboardShortcuts.CategoriesInFirstUseOrder | src/components/KeyboardShortcuts.tsx:48 | for any list, each heading appears once, in the order the list first uses it |
| KeyboardShortcuts.Section | src/components/KeyboardShortcuts.tsx:75-76 | a section is an order-preserving subsequence of the list, all of its category |
| KeyboardShortcuts.SectionComplete | src/components/KeyboardShortcuts.tsx:75-76 | a shortcut is in a section exactly when it is in the list with that category |
| KeyboardShortcuts.SeparatorAllButLast | src/components/KeyboardShortcuts.tsx:94 | a separator follows a heading exactly when it is not the last |
| KeyboardShortcuts.ShortcutRoundTrip | src/components/KeyboardShortcuts.tsx:112-120 | the built string gives back the modifier flags and the lower-cased key, so the prefixes come in a fixed order |
| KeyboardShortcuts.ShortcutString | src/components/KeyboardShortcuts.tsx:112-120 | the string is the lower-cased key alone exactly when no modifier is held |
| KeyboardShortcuts.CtrlMetaAlike | src/components/KeyboardShortcuts.tsx:113-117 | Ctrl and Meta build the same string |
| KeyboardShortcuts.HandleKeyDown | src/components/KeyboardShortcuts.tsx:111-135 | runs exactly the dispatched handlers, in order, and prevents the default exactly when one ran |
| KeyboardShortcuts.DispatchRegistered | src/components/KeyboardShortcuts.tsx:123-134 | only registered handlers run |
| KeyboardShortcuts.Dispatch | src/components/KeyboardShortcuts.tsx:123-134 | only registered handlers run; at most two calls, at most one with a modifier; none exactly when the built string has no handler |
| KeyboardShortcuts.DispatchCount | src/components/KeyboardShortcuts.tsx:123-134 | without modifiers a handler for the key runs twice and none runs otherwise; with modifiers the handler for the built string runs once at most |
| CostTracker.FormatTime | src/components/CostTracker.tsx:99-111 | the label is never empty and ends in `s` |
| CostTracker.ParseTime | src/components/CostTracker.tsx:99-111 | a reader for the labels: a negative reading only from a label that starts with `-` |
| CostTracker.FormatTimeFields | src/components/CostTracker.tsx:100-110 | the three forms by elapsed seconds; in the multi-unit forms minutes and seconds are below 60 and h·3600 + m·60 + s is the whole seconds elapsed |
| CostTracker.ParseSecondsLabel | src/components/CostTracker.tsx:109 | a seconds label reads back as its seconds |
| CostTracker.ParseMinutesLabel | src/components/CostTracker.tsx:107 | a minutes label reads back as m·60 + s |
| CostTracker.ParseHoursLabel | src/components/CostTracker.tsx:105 | an hours label reads back as h·3600 + m·60 + s |
| CostTracker.FormatTimeRoundTrip | src/components/CostTracker.tsx:99-111 | every label, negative ones included, reads back as the whole seconds elapsed |
| CostTracker.HoursRoundTrip | src/components/CostTracker.tsx:104-105 | same, for an hour or more |
| CostTracker.MinutesRoundTrip | src/components/CostTracker.tsx:106-107 | same, for a minute up to an hour |
| CostTracker.SecondsRoundTrip | src/components/CostTracker.tsx:108-109 | same, below a minute |
| CostTracker.FormatTimeDistinguishesSeconds | src/components/CostTracker.tsx:99-111 | two durations get the same label exactly when they have the same whole seconds |
| Js.Get | supabase/functions/ai-chat/index.ts:106 | property access throws exactly on a nullish value, with the engine's message; a present property yields its value |
| Js.OptionalGet | supabase/functions/ai-chat/index.ts:103 | `?.` never throws and gives `undefined` on a nullish value |
| Js.GetPathOfNest | supabase/functions/ai-chat/index.ts:106 | reading a path out of a value shaped along it yields the leaf |
| Js.TruthyScalarTextNonEmpty | supabase/functions/ai-chat/index.ts:103 | a truthy value other than an array renders as non-empty text |
| Js.EmptyArrayIsTruthyButBlank | supabase/functions/ai-chat/index.ts:103 | `[]` passes the `||` test yet renders empty, leaving the prefix with nothing after it |
| Text.Lower | src/components/SessionManagement.tsx:51-52 | `toLowerCase` keeps the length and leaves no ASCII capital; every other character stays in place and each capital becomes the letter 32 code points up |
| Text.Take | src/components/SessionManagement.tsx:159 | `slice(0, n)` is a prefix of length min(n, length) |
| Text.OrElse | src/components/SettingsModal.tsx:43-44 | `v \|\| fallback` gives v when it is present and non-empty, and the fallback otherwise |
| Text.ContainsAt | src/components/SessionManagement.tsx:51-52 | `includes` holds exactly when the needle occurs at some position |
| Seqs.FilterMembership | src/components/SessionManagement.tsx:50-53 | an element survives a filter exactly when it was there and passes |
| Seqs.FilterIsSubsequence | src/components/ExportOptions.tsx:58 | a filter keeps the surviving elements in their order |
| Seqs.Dedup | src/components/KeyboardShortcuts.tsx:48 | `Array.from(new Set(xs))` holds exactly the elements of xs, each once |
| Seqs.DedupFirstOccurrenceOrder | src/components/KeyboardShortcuts.tsx:48 | it lists them in order of first occurrence |

## Left out

- Network and hosting: `fetch`, Deno `serve`, the CORS preflight, and `response.json()` failing on a body that is not JSON. A provider reply is given as an outcome (ok or not, plus a JSON value).
- Supabase auth calls: `auth.getUser()` is an `Option` parameter. The Supabase client and its environment variables are not modelled.
- `req.json()` failing on a malformed client body: the request is given already parsed.
- The results of unchecked database calls are boolean parameters: the `chat_messages` insert in `ai-chat` and the deactivation update in `start-session`. Database-assigned ids are given as parameters.
- Dates and locale: `toLocaleString`, `toISOString` and `Date.now()` are opaque strings or a `localize` parameter. This covers the session title, the export timestamps and message ids.
- `JSON.stringify`, `Blob`, object URLs, the DOM download and the clipboard write. A JSON file or clipboard entry carries the record itself.
- Toasts, `isExporting`, `isLoading`, `isExpanded` and other flags that only affect rendering. Markup and key rendering (`renderKey`) are also left out.
- The pause, resume, inject-note and export-session emits in `src/pages/Index.tsx`. The socket `error` toast handler.
- The stale `currentMessages` closure and re-subscription in `src/pages/Index.tsx`. The handler reads the current buffer.
- Concurrency of the two model streams and the socket.io transport. Events are a sequence.
- `src/lib/api.ts` wrapper functions: thin Supabase queries. Only the row shapes are modelled, in `Api`.
- `src/components/ChatPanel.tsx`, `src/components/OverseerPanel.tsx` and `src/components/FirstPromptBanner.tsx`: rendering only. `handleSessionSelect` in `src/components/SessionManagement.tsx` only calls its prop and shows a toast.
- Simulated metrics in `src/components/CostTracker.tsx`: `Math.random`, `setInterval`, `formatCurrency` and `formatLatency`.
- `CostTracker.FormatTime`: models an integral millisecond count, not a fractional or NaN number.
- `ModelConfigPanel.Merge`: `parseFloat`/`parseInt` results are kept as an optional real (temperature) or an optional integer (maxTokens). Floating-point rounding and NaN are not modelled.
- `Text.Lower`: lower-cases ASCII letters only, not every case mapping `toLowerCase` applies.
- `Export.CsvRoundTrip`: requires timestamps and model types without double quotes. The code quotes those two fields without escaping them, and the round trip fails otherwise.
- CSV line endings: the code writes `\n`, not the CRLF that RFC 4180 section 2, item 1 specifies. The reader accepts `\n`.
- `Export.ExportRestores`: requires metadata and timestamps. Without metadata the export carries no session id, and without timestamps no `created_at`, so rows can be rebuilt only from such exports.
- `Export.HandleExport`: the `onClose()` call after a download (`src/components/ExportOptions.tsx:234`) is not modelled, because the dialog's open state is rendering only.
- `Js.Get`: only own fields and array indices are modelled. `.length` and inherited properties read as `undefined`; no path in `ai-chat` reads them.
- `Csv.Quote`: has no contract of its own. What a reader gets back from a quoted field is stated by `Csv.QuotedWithoutQuotes` and `Csv.ParseQuotedEscape`.
- Keyboard dispatch without modifiers runs the same handler twice. This is the code's behaviour and is reproduced, not corrected.
- In `SettingsModal.SettingsForm.SelectProvider`, switching provider after both models are set keeps the previous provider's models. This is reproduced.

## Findings

| source | as written | input that shows it | evidently intended | confidence | as-written member | corrected member |
|---|---|---|---|---|---|---|
| src/components/ExportOptions.tsx:249-253 | for formats other than `json` the copied value is `exportAsText(data)`, which is a `Blob`, so `typeof text === 'string'` is false and the clipboard gets compact JSON | format `txt`, any session: the clipboard holds `JSON.stringify(data)`, not the text rendering | a text copy holds the plain-text rendering, the same text the `txt` download holds | not executed | Export.ClipboardAsWritten | Export.Clipboard |
