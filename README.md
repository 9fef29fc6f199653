# Chatbot backend core, modelled in Dafny

This project models the core of a multi-tenant customer-support chatbot backend, an Express server written in TypeScript. It also proves properties of that model. A user registers, logs in with a JWT and creates chatbots. They upload a PDF to a chatbot, which the server splits into overlapping chunks. The server embeds each chunk and stores it in a vector collection named after the chatbot. The owner then asks questions, and the server answers from the nearest chunks through a completion model. A public widget route answers the same kind of query for anyone holding the chatbot's API key, from the domains the chatbot allows.

The model covers:

- the document chunker `splitTextIntoChunks` (module `Chunker`). It is a `while` loop, proved against a closed-form window function. The lemmas cover the exact window, the chunk count, non-emptiness, reconstruction of the text, and the 500/100 call of the upload handlers.
- the request handlers of the chatbot controller over an abstract store. Module `Handlers` holds one specification function per handler, with the store before the request as input and an `Outcome` as result. The outcome is the store afterwards, the replies handed to Express in order, and how the handler's promise settles. The handlers are `createChatbot`, `uploadDocument`, `updateDocument`, `queryChatbot`, `publicChatbotQuery`, `deleteChatbot` and `toggleWidget`.
- class `ChatbotController.Backend`, which performs the same handler steps on its fields (the chatbots table, its serial counter, the collections). Each method is proved to end in the state and replies its specification function gives.
- the pure pieces of retrieval (module `Rag`): the collection name `chatbot_<param>`, the records of one upload, `Promise.all` over the embeddings, the documents a query reads back, the context string and the two-message prompt.
- the CORS options of the public route and the router's registration table (`ChatbotRoutes`).
- the error classes (`CustomErrors`) and the Express error handler (`ErrorHandler`).
- the Zod schemas for registering and logging in (`UserValidator`), the `validateRequest` middleware (`ValidateRequest`) and the JSON form of Zod issues (`Zod`).
- the `sendSuccess`/`sendError` envelopes (`Response`).
- the `protect` middleware (`Auth`).

Some JavaScript built-ins get their own definitions (`Js`):

- `slice`, `split`, `join`, `startsWith` and `includes`;
- `parseInt` with and without radix 10;
- template literals of integers;
- `Buffer.toString('hex')`.

JSON values keep their members in insertion order (`Json`).

The external services are parameters, in a `Services` value:

- the embedding model;
- the completion model;
- pdf-parse's text;
- the vector store's write outcome, whether its `deleteCollection` succeeds, and its nearest-neighbour ranking.

The JWT verifier, the random bytes of a widget key, the e-mail format check and the answer of the domains query are parameters too.

Two controller files exist. src/controllers/chatbot.ts is the version the router uses. packages/backend/src/controllers/chatbot.ts is an older copy of its first half, and its chunker, `createChatbot`, `uploadDocument` and `queryChatbot` behave the same. The model follows the former and cites either file where both say the same thing.

Some behaviours of the code that the model keeps as written:

- The number of chunks is ceil(n / (size − overlap)), not ceil((n − overlap) / (size − overlap)). A 450-character text gives two chunks with 500/100, and the second lies inside the first (`Chunker.UploadSplitOf450`).
- For 1200 characters the windows start at 0, 400 and 800, and the last is 400 characters long (`Chunker.UploadSplitOf1200`).
- `getCollection` on a collection that does not exist rejects the handler's promise. It is not turned into an empty answer.
- `queryChatbot`, `updateDocument` and `deleteChatbot` send 404 on an ownership miss and carry on. Every later `res.json` on the same request throws `ERR_HTTP_HEADERS_SENT`. In `updateDocument` that throw happens inside the `try`, so the handler's `catch` attempts one more reply, `500 {error: 'Failed to update document'}`, which throws again and rejects the promise.

## Model

| member | source | states |
|---|---|---|
| Chunker.ChunkCount | src/controllers/chatbot.ts:59-63 | the loop's window count is the least c with c·step ≥ n: zero exactly for empty text, and the last window starts before n |
| Chunker.CeilUnique | src/controllers/chatbot.ts:59-63 | any count with those two properties equals ChunkCount, so the count is ceil(n / step) |
| Chunker.SplitTextIntoChunks | src/controllers/chatbot.ts:56-67 | the while loop terminates when chunkSize > chunkOverlap; it emits ChunkCount windows, window i being `text.slice(i·step, min(i·step + chunkSize, len))` |
| Chunker.Chunk | src/controllers/chatbot.ts:61-62 | definition: window i, `text.slice(i·step, min(i·step + chunkSize, len))` |
| Chunker.Chunks | src/controllers/chatbot.ts:56-67 | definition: the closed form of the loop's result, ChunkCount windows, window i being Chunk i |
| Chunker.ChunkStartInside | src/controllers/chatbot.ts:59 | every emitted window starts strictly inside the text |
| Chunker.ChunkWindow | packages/backend/src/controllers/chatbot.ts:55-66 | with chunkOverlap ≥ 0, chunk i is exactly text[i·step .. min(i·step + chunkSize, len)], non-empty and at most chunkSize long |
| Chunker.EmptyTextNoChunks | src/controllers/chatbot.ts:59 | empty text gives no chunks |
| Chunker.Take | src/controllers/chatbot.ts:62 | the fresh part of a window is its first min(step, length) characters |
| Chunker.TakeOfWindow | src/controllers/chatbot.ts:60-62 | the fresh part of a window starting inside the text is text[start .. min(start + step, len)] |
| Chunker.ReassembleStep | src/controllers/chatbot.ts:60-62 | appending one window's fresh part to the prefix before that window extends the prefix to the window's start plus step |
| Chunker.SlidingWindowsInit | src/controllers/chatbot.ts:59-63 | dropping the last window of a sliding sequence leaves a sliding sequence that ends where the dropped window starts |
| Chunker.ReassembleWindows | src/controllers/chatbot.ts:59-63 | the fresh parts of sliding windows concatenate to the text's prefix up to the last start plus step |
| Chunker.ReassembleChunks | src/controllers/chatbot.ts:56-64 | concatenating the first min(size − overlap, length) characters of every chunk gives back the text exactly |
| Chunker.LastChunkIsSuffix | src/controllers/chatbot.ts:60-64 | on non-empty text the last chunk runs to the end of the text |
| Chunker.UploadSplitOf1200 | src/controllers/chatbot.ts:99 | with 500/100, 1200 characters give windows text[0..500], text[400..900], text[800..1200] of lengths 500, 500, 400 |
| Chunker.UploadSplitOf450 | packages/backend/src/controllers/chatbot.ts:100 | with 500/100, 450 characters give two chunks: the whole text and text[400..450] |
| Rag.CollectionName | src/controllers/chatbot.ts:118 | the collection is "chatbot_" followed by the raw route parameter, which can be read back out of it |
| Rag.CollectionNameInjective | packages/backend/src/controllers/chatbot.ts:119 | upload and query name the same collection for the same parameter, and distinct parameters name distinct collections |
| Rag.ChunkId | src/controllers/chatbot.ts:109 | a record id is the file's original name, "-", and the decimal index |
| Rag.ChunkIdInjective | src/controllers/chatbot.ts:109 | within one file name, equal ids mean equal indices |
| Rag.EmbedAll | src/controllers/chatbot.ts:102-114 | `Promise.all` of one embedding request per chunk succeeds exactly when every request does, giving every vector in chunk order; a failure carries the error of a failed chunk |
| Rag.EntriesOfUpload | src/controllers/chatbot.ts:102-126 | one record per chunk in chunk order: id `originalname-i`, the chunk as document, chunk i's vector, the same `{userId, chatbotId}` metadata on each, and pairwise distinct ids |
| Rag.Entries | src/controllers/chatbot.ts:108-125 | definition: one record per chunk with id, document, vector and metadata |
| Rag.Retrieve | src/controllers/chatbot.ts:403-406 | a query returns at most nResults documents, each the document of a record of the collection |
| Rag.RetrieveStaysInTenant | src/controllers/chatbot.ts:171-175 | when every record of a collection carries a chatbot id, every retrieved document comes from a record carrying that id |
| Rag.ContextOfNothing | packages/backend/src/controllers/chatbot.ts:178 | no result row, or an empty one, gives the empty context |
| Rag.ContextSplitsIntoDocuments | packages/backend/src/controllers/chatbot.ts:178 | the context splits back on "\n" into the first row's documents when none holds a line break |
| Rag.Context | src/controllers/chatbot.ts:177 | definition: `results.documents[0]?.join('\n') || ''` |
| Rag.PromptShape | packages/backend/src/controllers/chatbot.ts:181-187 | the prompt is the fixed system persona followed by a user message "Context: " + context + "\n\nQuery: " + query, and each part sits at its position |
| Rag.Prompt | src/controllers/chatbot.ts:182-185 | definition: the system persona and the user message built from context and query |
| Rag.PromptInjective | src/controllers/chatbot.ts:411-417 | prompts built from different contexts or queries differ when one of the two pairs has equal lengths |
| Handlers.UploadErrorReply | packages/backend/src/controllers/chatbot.ts:132-140 | upload failure mapping: exactly 'Only PDF files are allowed' gives 400 with that message; a message containing 'File too large' gives 400 'File size exceeds 5MB limit'; anything else gives 500 with the same size message |
| Handlers.UpdateErrorReply | src/controllers/chatbot.ts:261-270 | the update catch answers a bare `{error}` body: 400 for the PDF-only message, 400 size message for 'File too large', otherwise 500 'Failed to update document' |
| Handlers.NoStartCharNoInclude | src/controllers/chatbot.ts:266 | `includes` is false when the first character of the substring occurs nowhere in the string |
| Handlers.HeadersSentIsUpdateFailure | src/controllers/chatbot.ts:261-269 | the update catch answers the headers-sent error with its generic 500 'Failed to update document' |
| Handlers.UploadErrorsSpeakOfSize | packages/backend/src/controllers/chatbot.ts:136-140 | every upload failure other than the PDF-only one reports 'File size exceeds 5MB limit', with 400 exactly when the message includes 'File too large' |
| Handlers.OwnedId | src/controllers/chatbot.ts:80-89 | a chatbot found by the tenant-scoped lookup is a row owned by the caller, under the id `parseInt` reads; when none is found no row of the caller has that id; with the default radix it agrees with the unscoped lookup by id followed by an owner check |
| Handlers.OwnedIdOfDecimal | src/controllers/chatbot.ts:210 | the decimal form of an id finds that chatbot exactly when the caller owns it, under `parseInt` with or without radix 10 |
| Handlers.RowById | src/controllers/chatbot.ts:378-381 | definition: the row whose id is `parseInt(id)`, with no owner condition |
| Handlers.ChatbotJson | packages/backend/src/db/schema.ts:11-17 | definition: the returned row as JSON, with keys id, userId, name and apiKey in that order |
| Handlers.CreateChatbotSpec | src/controllers/chatbot.ts:38-54 | definition: the outcome of `createChatbot` for the store, the body's name and the caller |
| Handlers.CreateChatbotBehaviour | packages/backend/src/controllers/chatbot.ts:37-53 | a missing or empty name gives 400 'Name is required' and changes nothing; otherwise exactly one row owned by the caller, with no API key, is inserted under the serial id, the serial advances by one, no collection changes, and the reply is 200 `{chatbot}` carrying that id, owner, name and a null key; one reply; the store stays valid |
| Handlers.Ingest | src/controllers/chatbot.ts:95-114 | definition: pdf-parse's text, chunked with 500/100 and embedded, as records; or the message of the step that threw |
| Handlers.WriteCollection | src/controllers/chatbot.ts:117-126 | definition: `getOrCreateCollection` then `add`: a failed create changes nothing, a failed add leaves the collection created, success appends the records |
| Handlers.IngestTagsTenant | src/controllers/chatbot.ts:125 | every record ingested from one upload carries the metadata `{userId, chatbotId}` of the request |
| Handlers.DropCollection | src/controllers/chatbot.ts:219-224 | `deleteCollection` with its error swallowed: the named collection is gone exactly when the drop succeeds, and every other collection is kept as it was |
| Handlers.WriteKeepsIsolation | src/controllers/chatbot.ts:117-126 | writing records tagged with a chatbot id into `chatbot_<id>` keeps every collection holding only its own chatbot's records |
| Handlers.DropKeepsIsolation | src/controllers/chatbot.ts:219-224 | dropping a collection, or failing to, keeps that isolation |
| Handlers.UploadDocumentBehaviour | packages/backend/src/controllers/chatbot.ts:68-142 | no file gives 400 'No file uploaded' and an ownership miss 404, both before any write; an extraction or embedding failure writes nothing and replies with that error mapped by the upload catch; otherwise the collections end as `getOrCreateCollection` and `add` leave them and the reply is the mapped write error or 200 with the success message; on success exactly the chunk records (500/100) are appended to `chatbot_<id>`; chatbot rows and the serial never change; one reply; the store stays valid |
| Handlers.UploadDocumentSpec | src/controllers/chatbot.ts:69-141 | definition: the outcome of `uploadDocument` for the store, the parameter, the caller, the file and the services |
| Handlers.RebuildEffect | src/controllers/chatbot.ts:226-258 | ingesting into a collection changes only that collection: untouched after an ingestion or create failure, created empty after a failed add, extended by the records on success |
| Handlers.Rebuild | src/controllers/chatbot.ts:226-258 | definition: an ingestion failure writes nothing, otherwise WriteCollection decides |
| Handlers.UpdateDocumentSpec | src/controllers/chatbot.ts:194-271 | definition: the outcome of `updateDocument`; no file gives 400, anything else goes on to UpdateWith |
| Handlers.UpdateWith | src/controllers/chatbot.ts:203-270 | definition: `updateDocument` after the file check, given how ingestion, the drop and the write went |
| Handlers.UpdateReplies | src/controllers/chatbot.ts:214-270 | definition: the replies attempted, the 404 of an ownership miss first |
| Handlers.UpdateDocumentStore | src/controllers/chatbot.ts:194-271 | whoever owns the chatbot, `chatbot_<id>` is dropped before the PDF is read. When the drop succeeds: after an extraction, embedding or create failure it is absent, after a failed add empty, and on success it holds exactly the new records. When the drop fails: the store is unchanged after an ingestion or create failure, the old records stay after a failed add, and on success the new records follow the old ones. No other collection and no chatbot row changes; the store stays valid |
| Handlers.UpdateDocumentReplies | src/controllers/chatbot.ts:214-270 | the owner gets exactly one reply, the success message or the mapped error; on an ownership miss the 404 comes first, the later replies are still attempted and the promise rejects with headers-already-sent |
| Handlers.UpdateWithReplies | src/controllers/chatbot.ts:214-269 | the same reply sequence, stated for any outcome of ingestion and write |
| Handlers.UpdateByNonOwner | src/controllers/chatbot.ts:214-258 | a caller who does not own chatbot id gets 404, yet after a successful drop and write `chatbot_<id>` is non-empty and every record in it carries the caller's user id, not the owner's |
| Handlers.UpdateOwnedDocumentSpec | src/controllers/chatbot.ts:214-216 | definition: the handler with a return after the 404 |
| Handlers.UpdateOwnedOnlyByOwner | src/controllers/chatbot.ts:214-258 | with that return an ownership miss changes nothing and gets one 404, a store change means the caller owns the chatbot, the owner's request behaves as in the source, and after a successful drop and write every record in the collection carries the owner's user id |
| Handlers.AnswerReadsOwnTenant | src/controllers/chatbot.ts:164-191 | a query never changes the store; when it answers, at most nResults documents from records of the same chatbot id form the context, the prompt is built from that context and the query, and the reply is `{response, context}` |
| Handlers.AnswerSpec | src/controllers/chatbot.ts:163-191 | definition: embed the query, read `chatbot_<param>` (rejecting when it is missing), take nResults documents, build context and prompt, complete, and reply `{response, context}` |
| Handlers.QueryChatbotSpec | src/controllers/chatbot.ts:143-192 | definition: the ownership check with radix-less `parseInt`, then AnswerSpec with 3 results |
| Handlers.QueryChatbotBehaviour | src/controllers/chatbot.ts:143-192 | the owner's query asks for 3 documents; an ownership miss sends 404 first and the handler carries on, so its promise rejects; the store never changes |
| Handlers.PublicGate | src/controllers/chatbot.ts:378-390 | the gates apply in order: unknown id 404, no API key 403 whatever header is sent, a missing or different X-API-Key 401; the query passes exactly when the row has a key equal to the header |
| Handlers.PublicChatbotQueryBehaviour | src/controllers/chatbot.ts:373-423 | a gated request changes nothing and sends only the gate's reply; an admitted one asks for 5 documents and sends at most one 200 reply |
| Handlers.PublicChatbotQuerySpec | src/controllers/chatbot.ts:373-423 | definition: the gates, then AnswerSpec with 5 results and no earlier reply |
| Handlers.DeleteChatbotBehaviour | src/controllers/chatbot.ts:281-309 | afterwards the row with the parsed id is gone and `chatbot_<param>` is gone exactly when its drop succeeded; every other row and collection keeps its contents and the serial is unchanged; the owner gets one 204; a non-owner gets 404 first and the promise rejects; the store stays valid |
| Handlers.DeleteChatbotSpec | src/controllers/chatbot.ts:281-309 | definition: the outcome of `deleteChatbot`, deleting by id alone after the ownership check |
| Handlers.DeleteByNonOwner | src/controllers/chatbot.ts:294-299 | a user who does not own chatbot 1 gets 404 and still deletes it |
| Handlers.DeleteOwnedOnlyByOwner | src/controllers/chatbot.ts:294-299 | with a return after the 404, a store change means a chatbot of the caller was deleted, one reply is sent, and the owner's request behaves as in the source, whether the drop succeeds or not |
| Handlers.DeleteOwnedChatbotSpec | src/controllers/chatbot.ts:294-296 | definition: the handler with a return after the 404 |
| Handlers.WidgetKey | src/controllers/chatbot.ts:332 | `randomBytes(32).toString('hex')` is 64 lower-case hexadecimal characters that decode back to the bytes |
| Handlers.ToggleWidgetBehaviour | src/controllers/chatbot.ts:311-339 | with no owned row the handler rejects and changes nothing; with one it resolves: an enabled widget's key is cleared with no reply; a disabled one gets a 64-hex-character key, returned as `{message: 'Widget enabled', apiKey}`; no other row, no collection and not the serial changes; the row keeps its owner and name |
| Handlers.ToggleWidgetSpec | src/controllers/chatbot.ts:311-339 | definition: the outcome of `toggleWidget` for the store, the parameter, the caller and the random bytes |
| Handlers.ToggleTwice | src/controllers/chatbot.ts:324-336 | toggling an enabled widget twice enables it again with the new key |
| ChatbotController.Backend.constructor | packages/backend/src/db/schema.ts:11-17 | the store starts empty and valid, with the serial id at 1 |
| ChatbotController.Backend.CreateChatbot | src/controllers/chatbot.ts:38-54 | the table and replies end as CreateChatbotSpec gives, and the store stays valid |
| ChatbotController.Backend.IngestPdf | src/controllers/chatbot.ts:95-114 | extract, chunk with 500/100 through the chunker's loop, and embed: the result is Ingest's |
| ChatbotController.Backend.WriteRecords | src/controllers/chatbot.ts:117-126 | `getOrCreateCollection` then `add` change the collections as WriteCollection gives and nothing else |
| ChatbotController.Backend.UploadDocument | src/controllers/chatbot.ts:69-141 | the store and replies end as UploadDocumentSpec gives, and the store stays valid |
| ChatbotController.Backend.UpdateDocument | src/controllers/chatbot.ts:194-271 | the drop-then-rebuild steps, the drop possibly failing, leave the store and replies UpdateDocumentSpec gives, and the store stays valid |
| ChatbotController.Backend.Answer | src/controllers/chatbot.ts:164-191 | the shared query tail produces AnswerSpec's replies and settlement |
| ChatbotController.Backend.QueryChatbot | src/controllers/chatbot.ts:143-192 | replies and settlement are QueryChatbotSpec's |
| ChatbotController.Backend.PublicChatbotQuery | src/controllers/chatbot.ts:373-423 | replies and settlement are PublicChatbotQuerySpec's |
| ChatbotController.Backend.DeleteChatbot | src/controllers/chatbot.ts:281-309 | the store and replies end as DeleteChatbotSpec gives (deletion by id alone, the drop possibly failing), and the store stays valid |
| ChatbotController.Backend.ToggleWidget | src/controllers/chatbot.ts:311-339 | the store and replies end as ToggleWidgetSpec gives, and the store stays valid |
| ChatbotRoutes.DomainsOf | packages/backend/src/routes/chatbotRoutes.ts:20-23 | the domains read are exactly those of rows whose chatbot id equals the parsed key; a NaN key matches none |
| ChatbotRoutes.DomainLookupKey | packages/backend/src/routes/chatbotRoutes.ts:23 | definition: `parseInt(id || "0")` |
| ChatbotRoutes.RequestOrigin | packages/backend/src/routes/chatbotRoutes.ts:25 | definition: `req.get('Origin') || ''` |
| ChatbotRoutes.SomeAllows | packages/backend/src/routes/chatbotRoutes.ts:26-28 | definition: the `some` over the domain rows |
| ChatbotRoutes.SomeAllowsIff | packages/backend/src/routes/chatbotRoutes.ts:26-28 | `some` holds exactly when some domain equals the origin or "*" |
| ChatbotRoutes.CorsOptionsFor | packages/backend/src/routes/chatbotRoutes.ts:14-38 | a failed lookup gives `{origin: false}` alone; otherwise methods are ["POST"] and allowed headers ["Content-Type", "X-API-Key"] |
| ChatbotRoutes.CorsOriginIff | packages/backend/src/routes/chatbotRoutes.ts:25-34 | the request origin is reflected exactly when a domain row of the chatbot equals it or "*", and `false` is set otherwise |
| ChatbotRoutes.MissingOrigin | packages/backend/src/routes/chatbotRoutes.ts:25 | without an Origin header only a stored "*" or "" admits the request, and "" is reflected |
| ChatbotRoutes.MissingIdIsChatbotZero | packages/backend/src/routes/chatbotRoutes.ts:23 | a missing or empty id looks up chatbot 0 |
| ChatbotRoutes.Resolve | packages/backend/src/routes/chatbotRoutes.ts:46-54 | the route resolved is a registered one matching verb and path, and none matches when nothing is resolved |
| ChatbotRoutes.PrivateRoutesAreProtected | packages/backend/src/routes/chatbotRoutes.ts:46-54 | every registration except `/public/:id/query` runs `protect` first, and that one has no `protect` |
| ChatbotRoutes.ResolvedRouteGuarded | packages/backend/src/routes/chatbotRoutes.ts:46-54 | any request served by a route other than the public query passes `protect` first; POST /public/<id>/query runs cors, the rate limiter, then the handler |
| ChatbotRoutes.ResolveFirst | packages/backend/src/routes/chatbotRoutes.ts:46-54 | Express takes the first registration that matches: when no earlier registration matches verb and path, the first that does is the one resolved |
| ChatbotRoutes.PathMatches | packages/backend/src/routes/chatbotRoutes.ts:46-54 | definition: a path matches a pattern segment by segment, a parameter taking any one non-empty segment |
| CustomErrors.Name | src/errors/customError.ts:9 | `name` is the name of the class the error was constructed with, a different name for each class |
| CustomErrors.NewCustomAPIError | src/errors/customError.ts:5-10 | message, statusCode and details are stored as given, and the name is 'CustomAPIError' |
| CustomErrors.NewNotFoundError | src/errors/customError.ts:14-18 | status 404, no details, message resource + " not found" |
| CustomErrors.NewValidationError | src/errors/customError.ts:20-24 | status 400, message and details passed through |
| CustomErrors.NewUnauthorizedError | src/errors/customError.ts:26-30 | status 401, no details, the given message |
| CustomErrors.SubclassesAreCustomAPIErrors | src/errors/customError.ts:14-30 | every subclass instance is a CustomAPIError and an instance of its own class, not of a sibling |
| CustomErrors.NotFoundMessageInjective | src/errors/customError.ts:16 | two NotFoundErrors have the same message exactly when they name the same resource |
| CustomErrors.UnauthorizedDefault | src/errors/customError.ts:27 | the default UnauthorizedError says 'Unauthorized' with 401 |
| ErrorHandler.ErrorResponseBody | packages/backend/src/middlewares/errorHandler.ts:21-24 | the body's keys are success, message, then errors and stack when set; success is false and each key holds its value |
| ErrorHandler.MessageOf | packages/backend/src/middlewares/errorHandler.ts:23 | definition: `err.message || 'Something went wrong'` |
| ErrorHandler.HandleError | packages/backend/src/middlewares/errorHandler.ts:14-67 | first match wins: a ZodError gives 400 'Validation Error' with its issues; a CustomAPIError, subclasses included, its own status and message; another error named 'NotFoundError' 404 'Resource not found'; MongoServerError code 11000 409 'Duplicate key error' with [keyValue]; anything else 500 with its message or 'Something went wrong'; errors only in the first and fourth cases; stack exactly in development |
| UserValidator.RunChecks | packages/backend/src/validators/userValidator.ts:12-17 | the issues of a string field are at most one per check, all at that field's path, and none exactly when every check passes |
| UserValidator.RunChecksMembers | packages/backend/src/validators/userValidator.ts:12-17 | an issue is raised exactly when it is the issue of a failed check |
| UserValidator.RunChecksAt | packages/backend/src/validators/userValidator.ts:12-17 | with distinct messages, each check's issue is raised exactly when that check fails |
| UserValidator.FieldIssues | packages/backend/src/validators/userValidator.ts:4-8 | every issue of a field sits at that field's path |
| UserValidator.RegisterIssuesAt | packages/backend/src/validators/userValidator.ts:4-22 | the issues at a field's path are that field's own, and at confirmPassword the refine's as well |
| UserValidator.PasswordRules | packages/backend/src/validators/userValidator.ts:13-17 | each password rule is judged on its own: too short exactly when under 8 characters, and each class message exactly when that class is missing |
| UserValidator.NameRules | packages/backend/src/validators/userValidator.ts:6-7 | each name is reported too short exactly under 2 characters and too long exactly over 30 |
| UserValidator.PasswordsMatchRule | packages/backend/src/validators/userValidator.ts:19-22 | "Passwords don't match" at confirmPassword is raised exactly when every field is a string and password ≠ confirmPassword |
| UserValidator.RegisterAccepts | packages/backend/src/validators/userValidator.ts:4-22 | a registration parses exactly when every field is a string, the e-mail is valid, both names are 2 to 30 long, the password has 8 or more characters with an upper-case letter, a lower-case letter, a digit and another character, and the confirmation matches |
| UserValidator.RegisterIssues | packages/backend/src/validators/userValidator.ts:4-22 | definition: the issues of the register schema, field by field, then the refine when every field is a string |
| UserValidator.OnlyMismatch | packages/backend/src/validators/userValidator.ts:19-22 | a body whose fields all pass but whose confirmation differs has the refine's issue and no other |
| UserValidator.EmailPasses | packages/backend/src/validators/userValidator.ts:5 | the e-mail field passes exactly when the address is valid |
| UserValidator.NamePasses | packages/backend/src/validators/userValidator.ts:6-7 | a name passes exactly when it has 2 to 30 characters |
| UserValidator.PasswordPasses | packages/backend/src/validators/userValidator.ts:12-17 | a password passes exactly when it has 8 or more characters and one character of each of the four classes |
| UserValidator.PasswordShape | packages/backend/src/validators/userValidator.ts:13-17 | the same holds for any five checks of that shape, whatever their messages |
| UserValidator.LoginRules | packages/backend/src/validators/userValidator.ts:25-28 | a missing password gives 'Password is required' and a missing e-mail 'Invalid email address'; 'Invalid credentials' appears exactly for a password under 8 characters; login parses exactly with a valid e-mail and a password of 8 or more |
| UserValidator.LoginIssues | packages/backend/src/validators/userValidator.ts:25-28 | definition: the issues of the login schema |
| ValidateRequest.MessagesJson | src/middlewares/validateRequest.ts:16 | definition: `err.details.map((item) => item.message)` |
| ValidateRequest.FailureText | src/middlewares/validateRequest.ts:15 | definition: "Validation failed: " and the first message, "undefined" when there is none |
| ValidateRequest.Validate | src/middlewares/validateRequest.ts:5-21 | a parsed body calls `next()` and nothing else; a non-Zod error is forwarded with `next(error)`; a Zod failure answers 400 with success false, "Validation failed: " + the first message, and all messages |
| ValidateRequest.ValidationErrorsAreMessages | src/middlewares/validateRequest.ts:13-17 | a Zod failure's `errors` holds each issue's message as a string, in order and none left out, and `error` is "Validation failed: " followed by the first of them |
| ValidateRequest.ZodReplyIsErrorEnvelope | src/middlewares/validateRequest.ts:13-17 | the Zod failure reply is the `sendError` envelope with an errors list, and reads back as such |
| ValidateRequest.ValidateRegistration | src/middlewares/validateRequest.ts:8-9 | a registration passes the middleware exactly when the body satisfies every schema rule; any answer is a 400 |
| ValidateRequest.ParseRegister | src/middlewares/validateRequest.ts:8 | definition: `parseAsync` of the register schema, as its outcome |
| ValidateRequest.MismatchReply | src/middlewares/validateRequest.ts:11-17 | a body whose only issue is the refine's is answered with "Validation failed: Passwords don't match" and that message alone |
| ValidateRequest.MismatchedConfirmation | src/middlewares/validateRequest.ts:11-17 | a concrete well-formed registration whose confirmation differs gets exactly that reply |
| Zod.IssueJson | packages/backend/src/middlewares/errorHandler.ts:33 | an issue in a reply carries its message |
| Zod.IssuesJson | packages/backend/src/middlewares/errorHandler.ts:30-33 | definition: the issues as JSON objects, in order |
| Zod.IssuesKeepMessages | packages/backend/src/middlewares/errorHandler.ts:30-33 | the serialised issues are one object per issue, in order, each reading back its own message |
| Response.SendSuccess | packages/backend/src/utils/response.ts:14-20 | the body is exactly `{success: true, data}` with the given status |
| Response.SendError | packages/backend/src/utils/response.ts:22-28 | the body is `{success: false, error}`, plus `errors` exactly when an errors array is passed, even an empty one; no other keys |
| Response.ErrorJson | src/controllers/chatbot.ts:43 | a bare `{error: message}` body with the given status |
| Response.ReadSendSuccess | packages/backend/src/utils/response.ts:15-18 | a success envelope reads back as its data |
| Response.ReadSendError | packages/backend/src/utils/response.ts:23-27 | an error envelope reads back as its message and optional errors |
| Response.DefaultStatuses | packages/backend/src/utils/response.ts:14-22 | the statuses default to 200 for success and 400 for an error |
| Response.EnvelopesDisjoint | packages/backend/src/utils/response.ts:14-28 | no success envelope equals an error envelope |
| Auth.SplitBearer | packages/backend/src/middlewares/auth.ts:6-10 | a header starting with "Bearer " splits on spaces into "Bearer" and the fields of the rest |
| Auth.BearerToken | packages/backend/src/middlewares/auth.ts:5-10 | there is a token exactly when the header is present and starts with "Bearer " (case-sensitive), and it is the text after the prefix up to the next space |
| Auth.BearerTokenRoundTrip | packages/backend/src/middlewares/auth.ts:10 | a space-free credential after "Bearer " is read back as the token |
| Auth.FirstFieldFree | packages/backend/src/middlewares/auth.ts:10 | a string without the separator is its own first field |
| Auth.BearerTokenEdgeCases | packages/backend/src/middlewares/auth.ts:6-10 | "Bearer " alone gives the empty token; "bearer …", a missing header and an empty one give none |
| Auth.Request.constructor | packages/backend/src/middlewares/auth.ts:5 | a request carries its Authorization header and no user yet |
| Auth.Protect | packages/backend/src/middlewares/auth.ts:4-18 | no Bearer token gives 401 'Unauthorized'; a token the verifier rejects gives 401 'Invalid token', leaving `req.user` alone in both cases; an accepted token sets `req.user` to the decoded payload and calls `next()` instead of replying |
| Js.RelativeIndex | src/controllers/chatbot.ts:61 | a slice position is clamped into [0, length], a negative one counting from the end |
| Js.Slice | src/controllers/chatbot.ts:61 | `slice` of in-range positions is the substring, and empty when the end is not after the start |
| Js.StartsWith | packages/backend/src/middlewares/auth.ts:6 | definition: `startsWith`, a prefix test |
| Js.Includes | src/controllers/chatbot.ts:135 | definition: `includes`, the substring occurring at some position |
| Js.IncludesAt | src/controllers/chatbot.ts:135 | an occurrence at some position makes `includes` true |
| Js.Split | packages/backend/src/middlewares/auth.ts:10 | `split` always yields at least one field |
| Js.SplitFieldsFree | packages/backend/src/middlewares/auth.ts:10 | no field of a split holds the separator |
| Js.JoinSplit | packages/backend/src/middlewares/auth.ts:10 | joining a split with its separator gives the string back |
| Js.SplitFieldThenSep | packages/backend/src/middlewares/auth.ts:10 | a separator-free field followed by the separator splits off as the first field |
| Js.SplitFree | packages/backend/src/middlewares/auth.ts:10 | a separator-free string splits to itself alone |
| Js.SplitJoin | packages/backend/src/controllers/chatbot.ts:178 | splitting a join of separator-free parts gives the parts back |
| Js.FirstField | packages/backend/src/middlewares/auth.ts:10 | the first field is the separator-free prefix ending at the first separator or at the end |
| Js.SplitFirstField | packages/backend/src/middlewares/auth.ts:10 | `split(sep)[0]` is that first field |
| Js.Join | src/controllers/chatbot.ts:177 | definition: `join`, the parts with the separator between consecutive ones |
| Js.NatToString | src/controllers/chatbot.ts:109 | `${n}` is a non-empty string of digits without a leading zero unless n is 0 |
| Js.DigitPrefix | src/controllers/chatbot.ts:85 | `parseInt` reads the longest prefix of digits of its base |
| Js.TrimStart | src/controllers/chatbot.ts:85 | `parseInt` skips leading whitespace: the rest is a suffix starting with no whitespace |
| Js.DigitsValueOfNatToString | src/controllers/chatbot.ts:109 | the digits of `${n}` denote n |
| Js.DigitPrefixOfDigits | src/controllers/chatbot.ts:85 | a string of digits is read in full |
| Js.ParseIntNatToString | src/controllers/chatbot.ts:210 | `parseInt` with or without radix 10 reads `${n}` back as n |
| Js.ParseInt | src/controllers/chatbot.ts:85 | `parseInt`: skip leading whitespace and an optional sign; without a radix a "0x" prefix reads hexadecimal; no digit gives NaN |
| Js.NatToStringInjective | src/controllers/chatbot.ts:109 | distinct indices give distinct decimal strings |
| Js.HexChar | src/controllers/chatbot.ts:332 | a nibble is written as a lower-case hexadecimal digit of that value |
| Js.ToHex | src/controllers/chatbot.ts:332 | `toString('hex')` gives two lower-case hexadecimal digits per byte |
| Js.FromHexToHex | src/controllers/chatbot.ts:332 | the hexadecimal form of bytes reads back to the bytes |
| Js.FromHex | src/controllers/chatbot.ts:332 | definition: the bytes a lower-case hexadecimal string denotes, two digits per byte |
| Js.Truthy | src/controllers/chatbot.ts:324 | definition: an optional string is truthy when present and non-empty |
| Json.Keys | packages/backend/src/utils/response.ts:15-18 | an object's keys are its members' names in insertion order |
| Json.LookupAppend | packages/backend/src/middlewares/errorHandler.ts:33 | assigning a new key after construction leaves earlier keys as they were and makes the new one visible |
| Json.LookupAbsent | packages/backend/src/utils/response.ts:26 | a key absent from an object reads as missing |

## Left out

- The OpenAI embedding and completion calls, the Chroma client and its nearest-neighbour ranking are not modelled. They are network services with floating-point vectors, so they are inputs (`Services`): an embedding or an error per text, a ranking per collection and query vector, an answer or an error per prompt, one of three outcomes for the collection write, and success or failure for `deleteCollection`. Why a drop fails does not matter, because both handlers swallow the error.
- pdf-parse and multer are not modelled: the PDF mime filter, the 5 MB limit and the file buffer. The extracted text, or the error message pdf-parse raised, is an input, and an uploaded file is only its original name.
- `Promise.all` runs the embedding requests concurrently. `Rag.EmbedAll` maps over the chunks in order and reports the error of the first failing chunk, so when several requests fail, which error surfaces is not modelled.
- `crypto.randomBytes(32)` is a parameter of `toggleWidget`, and `jwt.verify` with the server's secret is a parameter of `protect`.
- JavaScript strings are UTF-16 code units. Dafny's `char` is a Unicode scalar value, so lengths of text holding surrogate pairs are not modelled.
- Body fields of the handlers are strings: `query` in `queryChatbot` and `publicChatbotQuery`, and `name` in `createChatbot` as an optional string. An absent `query`, which the source passes on as `undefined` into the embedding request and the prompt ("Query: undefined"), is not represented; an embedding request that fails on it is covered as an embedding error.
- JavaScript numbers are not modelled. User and chatbot ids are unbounded integers, a NaN from `parseInt` is `None` and matches no row, and `parseInt(userId, 10)` in `toggleWidget` is the id itself.
- `getAllChatbots` and `addDomainToChatbot` are not modelled. The domains table is not part of the store; CORS takes the result of the domains query as its input.
- Database failures, the foreign keys of the chatbots and domains tables, the 255-character limit on names, the uniqueness of API keys and the `createdAt` column are not modelled. A chatbot's JSON has no `createdAt`.
- Chroma's handling of duplicate record ids on `add`, and a query result whose documents are null, are not modelled.
- The rate limiter's counting per IP and time window is not modelled. It appears only as a stage of the public route.
- Logging is not modelled: `console.*` and the winston logger call in the error handler.
- Zod issues keep only their code, path and message. Zod's own wording of the e-mail format check is a parameter (`isEmail`).
- A body field that is present but not a string is modelled like a missing one, a single `invalid_type` issue with the field's type message.
- `Handlers.AnswerReadsOwnTenant`: says only which collection the documents come from and how many there are. It does not say that they are the nearest ones, since ranking is an input.
- `Handlers.StoreValid`: ties every record only to its chatbot id, through the collection name. The `userId` in a record's metadata is not an invariant of the store, and as written `updateDocument` can store records whose user id is not the owner's (`Handlers.UpdateByNonOwner`).
- `ChatbotRoutes.PathMatches`: an exact, case-sensitive match of whole segments. Express routes are case-insensitive and accept a trailing slash by default, so `ChatbotRoutes.Resolve` does not say which registration serves `/Public/1/query` or `/1/`.
- The auth controllers, the token utilities, the server bootstrap and the router wiring outside the chatbot routes are not part of this model.

## Findings

| source | as written | input that shows it | evidently intended | confidence | as-written member | corrected member |
|---|---|---|---|---|---|---|
| src/controllers/chatbot.ts:214-258 | after sending 404 for a chatbot the caller does not own, `updateDocument` goes on, drops `chatbot_<id>` and fills it with the caller's document, each record tagged with the caller's user id | chatbot 1 owned by user 10; user 20 sends PUT /1/document with a readable PDF | return after the 404, so that only the owner's request rebuilds the collection | not executed | Handlers.UpdateByNonOwner | Handlers.UpdateOwnedOnlyByOwner |
| src/controllers/chatbot.ts:294-299 | after sending 404 for a chatbot the caller does not own, `deleteChatbot` goes on and deletes the row by id alone, with its collection | chatbot 1 owned by user 10; user 20 sends DELETE /1 | return after the 404, so that only the owner's request deletes | not executed | Handlers.DeleteByNonOwner | Handlers.DeleteOwnedOnlyByOwner |
