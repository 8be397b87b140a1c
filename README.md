# Conversation memory of the psychologist-chat backend, in Dafny

This project models the conversation-memory protocol of a Rust/Axum backend
that keeps, per user, a persona prompt and one running summary of the dialogue
produced by a language model. Three parts are modelled:

- **The record store** (`db.dfy`, module `Db`): the `users` and `conversations`
  tables as maps in a `Store` object, with the schema constraints as its
  invariant `Valid()`. Names are unique (a name index that is exactly the
  inverse of the name column), ids come from a SERIAL sequence, and every
  conversation row belongs to an existing user. Lookups are functions that read
  the store. Inserts, updates and the summary upsert are methods.
- **The user handlers** (`user.dfy`, module `UserRoutes`): login (get or create
  the user with the default persona, then read its summary), reading and
  replacing the prompt, reading the summary. Each maps an absent user or
  summary to `NotFound` and every store error to `InternalServerError`.
- **The chat turn** (`chat.dfy`, module `ChatRoutes`): the two prompt
  templates, the persona fallback, the first-choice selection with its two
  fallbacks, a pure specification `ChatTurn` of a whole turn, and the
  imperative `ChatHandler`. The handler is proved to answer and store exactly
  what `ChatTurn` says. A turn either returns its reply and stores the new
  summary, or returns an error and stores nothing.

`wrappers.dfy` holds `Option` and `Result`; `models.dfy` mirrors the record
shapes of `src/models.rs` and Rust's `i32`.

Things from outside the program are parameters:

- The two calls to the generation backend are oracles of type
  `ChatArguments -> GenResult`. A `GenResult` is either `GenFail` (a hard
  failure) or `GenOk(choices)`.
- A store call that cannot reach the database is an injected fault. It is
  `storeFails` for handlers that make one call, and a `LoginFault` or
  `ChatFault` naming the failing call for login and chat.
- Errors caused by the data are modelled in `Db`: a duplicate name, a
  conversation for a missing user, and a sequence past its maximum.
- `DEFAULT_PROMPT` is the constant `UserRoutes.DefaultPrompt`, declared without
  a value, so no proof depends on its text.

Behaviour of the code that the model keeps on purpose:

- The persona falls back to the default only when the stored prompt is NULL.
  An empty stored prompt is used as it is (`src/routes/chat.rs:51`).
- Get-or-create has no retry (`src/db.rs:149-154`). An insert error reaches
  the caller as an internal error.
- `GET /prompt` answers `""` for a NULL prompt, not the default persona
  (`src/routes/user.rs:97`).

Consequences of the code that the proofs make explicit:

- A turn whose summarization call returns no choices, for a user with no
  summary yet, stores `Some("")`. After that, `GET /summary` answers `""`
  instead of `NotFound` (`ChatRoutes.TurnSucceeds` with `AbsentSummaryIsEmpty`).
- A login whose summary read fails after the user was created answers an
  internal error, and the new user stays (`UserRoutes.LoginHandler`).
- A duplicate insert still uses up one id of the sequence (`Db.Store.CreateUser`).

## Model

| member | source | states |
|---|---|---|
| Db.Store.constructor | src/db.rs:31-45 | freshly migrated tables are empty, the sequence starts at 1, and the schema invariant holds: unique names, ids below the sequence value, every conversation's user exists |
| Db.NamesAreUnique | src/db.rs:34 | under the schema invariant, two users with the same name are the same user |
| Db.Store.GetUserById | src/db.rs:73-86 | finds a user exactly when one has the id; the record carries that id and the stored name and prompt |
| Db.Store.GetUserByName | src/db.rs:89-102 | finds a user exactly when some user has the name; the result has that name and is the user stored under its id |
| Db.Store.GetConversationSummaryByUserId | src/db.rs:104-120 | finds a row exactly when the user has one; the row carries that user id and its (possibly NULL) summary |
| Db.Store.GetConversationSummary | src/db.rs:158-175 | None both when there is no row and when the summary is NULL; otherwise the stored summary; equal to the by-user-id row with its two levels of absence flattened |
| Db.Store.CreateUser | src/db.rs:56-70 | a new name gets the next sequence id with the given name and prompt, is found afterwards by id and by name, and nothing else changes; a taken name fails with a unique violation and leaves the users alone; an exhausted sequence fails and changes nothing; the invariant is kept |
| Db.Store.UpdateUserPrompt | src/db.rs:123-141 | reports true exactly when a user has the id; then that user's prompt becomes the new prompt and its name and all other users stay; on false nothing changes |
| Db.Store.GetOrCreateUser | src/db.rs:144-155 | an existing name returns the stored user as it is and changes nothing (the prompt is not reset); an absent name inserts a fresh user with the default prompt and returns it; afterwards the name resolves to the returned user |
| Db.Store.UpdateConversationSummary | src/db.rs:178-197 | upsert: for an existing user the summary becomes exactly the new one whether or not a row existed, other users' rows stay, one row per user remains; a missing user is a foreign-key error and nothing changes |
| UserRoutes.LoginHandler | src/routes/user.rs:64-84 | login answers the user the name resolves to and that user's stored summary; an existing user, its prompt and all summaries are unchanged; a new name creates a user with the default persona under the next sequence id (the sequence advances by one) whose summary is None; any injected store fault is an internal error, and every failure is an internal error, never NotFound |
| UserRoutes.GetPromptHandler | src/routes/user.rs:87-100 | for every known id without a store error, exactly the stored prompt, or "" when it is NULL (no default persona); NotFound exactly for an unknown id; a store error is an internal error |
| UserRoutes.UpdatePromptHandler | src/routes/user.rs:103-120 | NotFound with nothing changed for an unknown id; otherwise echoes the new prompt, which GET /prompt then returns, and changes only that user's prompt; a store error is an internal error and changes nothing |
| UserRoutes.GetSummaryHandler | src/routes/user.rs:128-141 | for every user with a non-NULL stored summary and no store error, exactly that summary; NotFound exactly when there is no row or its summary is NULL; a store error is an internal error |
| UserRoutes.LoginTwice | tests/db_tests.rs:61-79 | two logins with the same name answer identically (same id, same summary); a user created by the first keeps the default persona after the second |
| ChatRoutes.SystemRequestDetermines | src/routes/chat.rs:76-82 | the request sent to the backend determines the prompt: the prompt is passed whole, as the one system message |
| ChatRoutes.Persona | src/routes/chat.rs:51 | the persona is the stored prompt whenever one is stored, even the empty string, and the default persona only when it is NULL |
| ChatRoutes.ReplyPrompt | src/routes/chat.rs:54-68 | the reply prompt is exactly as long as persona, summary, message and the fixed template text together, and it begins with the persona |
| ChatRoutes.ReplyPromptLayout | src/routes/chat.rs:54-68 | the reply prompt is total and truncates nothing: its length is the sum of its parts, and persona, summary and message stand in it verbatim at fixed offsets |
| ChatRoutes.ReplyPromptDetermines | src/routes/chat.rs:54-68 | given the lengths of persona and summary, the reply prompt determines persona, summary and message |
| ChatRoutes.SummarizationPrompt | src/routes/chat.rs:95-116 | the summarization prompt is exactly as long as old summary, message, reply and the fixed template text together, and it begins with the fixed lead |
| ChatRoutes.SummarizationPromptLayout | src/routes/chat.rs:95-116 | the summarization prompt is total and truncates nothing; old summary, message and reply stand in it verbatim at fixed offsets |
| ChatRoutes.SummarizationPromptDetermines | src/routes/chat.rs:95-116 | given the lengths of old summary and message, the summarization prompt determines old summary, message and reply |
| ChatRoutes.ReplyRequestCarriesContext | src/routes/chat.rs:45-82 | the reply request sends persona, stored summary (or "") and new message verbatim in one system message |
| ChatRoutes.ReplyRequestDetermines | src/routes/chat.rs:54-82 | the reply request determines persona, summary and message, given the lengths of the first two: the backend sees the whole context |
| ChatRoutes.SummarizationRequestCarriesContext | src/routes/chat.rs:95-124 | the summarization request sends the prior summary (or ""), the new message and the reply verbatim in one system message to the configured model |
| ChatRoutes.SummarizationRequestDetermines | src/routes/chat.rs:95-124 | the summarization request determines old summary, message and reply, given the lengths of the first two |
| ChatRoutes.FirstChoiceOr | src/routes/chat.rs:89-92 | the first choice when there is one, the fallback when there are none; later choices are never used (also the summary choice at src/routes/chat.rs:131-134) |
| ChatRoutes.ChatTurn | src/routes/chat.rs:29-146 | a turn answers Ok exactly when it stores a summary; any injected store fault (user lookup, summary read, summary write) makes it an error and stores nothing; it is Unauthorized exactly when the user lookup works and finds no user; every other failure is an internal error; a successful answer carries the user's id |
| ChatRoutes.TurnSucceeds | src/routes/chat.rs:131-145 | on success the reply is the first reply choice or "(No reply)", and the stored summary is the first summary choice or the unchanged prior summary ("" when there was none) |
| ChatRoutes.ReplyFailureWritesNothing | src/routes/chat.rs:84-87 | a hard failure of the reply call yields an internal error and no summary write |
| ChatRoutes.SummaryFailureWritesNothing | src/routes/chat.rs:126-129 | a hard failure of the summarization call yields an internal error and no write; the reply already produced is not returned |
| ChatRoutes.AbsentSummaryIsEmpty | src/routes/chat.rs:45-48 | a turn for a user without a summary behaves exactly as one whose summary is "" |
| ChatRoutes.ChatHandler | src/routes/chat.rs:29-146 | the step-by-step handler answers exactly what ChatTurn says of the stored user and summary, upserts exactly the summary ChatTurn stores, changes nothing on any error, and never touches users |

## Left out

- Connection pooling, `.env` and environment lookups, and the sqlx/Postgres
  mechanics (`src/db.rs:11-25`) are not modelled. A store call that cannot
  reach the database is an injected fault, and a failed single-statement write
  is taken to change nothing.
- `run_migrations` itself is not modelled as an operation: only the
  constraints its DDL states are, as the invariant `Db.Store.Valid`.
- The OpenAI client, the API key and the HTTP transport (`src/routes/chat.rs:70-87`)
  are replaced by the two generation oracles. A choice is modelled as its
  message content only.
- Axum routing, `AppState`, the server bootstrap and serde framing
  (`src/routes/mod.rs`, `src/main.rs`, `tests/server_tests.rs`) are not modelled.
  Only the three status codes the handlers return are named.
- Data errors of Postgres `TEXT` are not modelled. Postgres rejects text
  containing U+0000, and the unique index on `users.name` rejects an entry
  longer than about 2.7 kB. In the source such a name, prompt or summary makes
  the call fail, and the handler answers an internal error. The model accepts
  any string: its `Db` methods never fail on the text itself.
- Concurrency is not modelled: interleaved turns for one user (where the last
  writer wins) and the race of two first logins for the same name. Without
  concurrency, the unique violation inside get-or-create cannot happen.
- The text of `DEFAULT_PROMPT` (`src/routes/user.rs:12-33`) is not modelled;
  its `{history}`/`{input}` placeholders are never filled in by the code.
- `src/models.rs` is mirrored as datatypes without properties of its own.
- Ids are unbounded integers, bounded only by the sequence maximum
  2147483647. Request and path ids are typed as 32-bit integers.
- The foreign-key error of the summary upsert is modelled, but no handler can
  reach it, because the chat turn upserts only for a user it has just found.
