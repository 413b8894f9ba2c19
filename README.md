# lokai-web: a verified model of the streaming chat turn

lokai-web is a small chat front end for a local Ollama inference server.
A browser talks to it over a WebSocket. For every prompt the server runs
one *turn* (`inference` in `src/ws.rs`):

1. It loads the conversation's stored history.
2. It stores the prompt and queues an `Append` frame for it.
3. It posts the history and the prompt to the inference server as a
   streaming chat request.
4. It queues an empty assistant *placeholder*.
5. It folds the streamed chunks into that placeholder, queuing a `Swap`
   frame with the whole reply so far after every chunk.
6. It stores the reply once.

This project models that turn and everything it relies on, one Dafny
module per source file:

- `Models`, `ModelsMessage`, `ModelsConversation` (`src/models.rs`,
  `src/models/*.rs`): roles and their case-insensitive, partial parse;
  messages and `update_content`; the older in-memory conversation, as a
  class whose list its methods update.
- `Ollama` (`src/ollama.rs`): the request and response shapes, and the
  conversion of a stored message into a request message.
- `Errors`, `ServerErrors` (`src/error.rs`, `src/server/error.rs`): error
  values and their mapping to responses.
- `Db` (`src/db.rs`): the conversation and message store, as a `Store`
  object with two tables in insertion order. Whether the database fails is
  an input to each call.
- `StaticFiles` (`src/main.rs`): the asset handler's header selection and
  the `cache_control` middleware.
- `Stream` (the chunk loop of `src/ws.rs`): the loop as a function
  `Consume` on the items of the response stream, with lemmas on trimming,
  skipping, accumulation and where the loop stops.
- `Ws` (`src/ws.rs`): the turn as a function `Turn` from its surroundings
  to its result and its ordered list of *effects*. An effect is a stored
  row, a queued frame, or the request made. Around it:
  - the method `Inference`, which runs the turn step by step against a
    `Store` and is proved to produce exactly `Turn`'s effects;
  - the inference worker's loop over many prompts (`Serve`);
  - the receiver loop (`Receive`) and the sender loop (`SendAll`).

The turn's surroundings are parameters (`Env`):

- the configured model name;
- one database fault per query;
- how many sends the frame channel accepts before its receiving side is
  gone;
- the inference server's answer: a connection failure, or the items of its
  body stream. Each item is a transport error, bytes that do not decode,
  or a decoded chunk;
- the id and time stamp of the reply message.

The turn panics in three places:

- it unwraps a missing conversation;
- `Role::from` meets an unknown role name;
- it unwraps a transport error in the body stream.

The `Panics` predicate describes these cases exactly. `Inference` and
`Serve` require that it does not hold. `Turn` and its lemmas need less:
only that every role in the request parses (`RequestConvertible`).

Where the code's behaviour is not what a reader might expect, the model
follows the code:

- The reply that is stored includes the fragment whose `Swap` send was
  refused: `update_content` runs before the send, and the loop breaks
  after it (`src/ws.rs:203-216`).
- The placeholder is announced with its own `Append` frame before any
  chunk is read (`src/ws.rs:182-190`).
- The inference worker stops at the first turn that returns an error
  (`src/ws.rs:40-43`). It does not go on to the next prompt.
- A refused send ends the turn through `?`, but `src/error.rs` gives
  `Error` no conversion from a channel send error. The model returns
  that early exit as a result of its own, `TurnError.SendRefused`.

## Model

| member | source | states |
|---|---|---|
| Models.RoleName | src/models.rs:40-48 | displays the three roles as exactly "system", "user" and "assistant", each lower-case ASCII and accepted by the parse |
| Models.RoleFromStr | src/models.rs:16-26 | `Role::from(&str)` is defined exactly on strings whose lower case is one of the three names (anything else panics); the role it gives displays as the lower-cased input |
| Models.RoleFromString | src/models.rs:28-38 | `Role::from(String)` agrees with `Role::from(&str)` on every input |
| Models.RoleRoundTrip | src/models.rs:16-48 | parsing the displayed form of any role gives that role back |
| Models.ParseIgnoresCase | src/models.rs:16-22 | every spelling of a role name that differs only in letter case ("User", "USER") parses to that role |
| Models.NewMessage | src/models.rs:60-68 | the role is stored in display form and parses back to the given role; content, conversation id, id and time stamp are kept |
| Models.UserMessage | src/models.rs:70-72 | role "user", content and conversation id kept |
| Models.AssistantMessage | src/models.rs:74-76 | role "assistant", content and conversation id kept |
| Models.UpdateContent | src/models.rs:78-80 | the new content is the old content followed by the update, and no other field changes |
| Models.UpdateContentTwice | src/models.rs:78-80 | two updates equal one update with the two pieces joined, and the old content is a prefix of the new |
| Models.NewConversation | src/models.rs:90-97 | the conversation keeps the given name, id and time stamp |
| ModelsMessage.New | src/models/message.rs:11-16 | sets exactly the speaker flag and the text given |
| ModelsMessage.Human | src/models/message.rs:18-20 | a human message with the text unchanged |
| ModelsMessage.Assistant | src/models/message.rs:22-24 | an assistant message with the text unchanged |
| ModelsConversation.Conversation.constructor | src/models/conversation.rs:14-19 | a new conversation has no messages and no context |
| ModelsConversation.Conversation.AppendMessage | src/models/conversation.rs:21-23 | pushes the message at the end; earlier messages and the context are unchanged |
| ModelsConversation.Conversation.ModifyLastMsg | src/models/conversation.rs:25-29 | the list becomes `WithLastText` of the old list; an empty conversation is unchanged; the context is untouched |
| ModelsConversation.WithLastText | src/models/conversation.rs:25-29 | same length; only the last message's text is replaced, and its speaker is kept; an empty list stays empty |
| ModelsConversation.IterYieldsInsertionOrder | src/models/conversation.rs:31-33 | `iter` yields the appended messages in the order they were appended, and still does after the last text is rewritten |
| Ollama.FromMessage | src/ollama.rs:11-17 | content copied unchanged; the role is the parse of the role string (lower-cased); an unknown role is excluded, as the parse panics on it |
| Ollama.FromMessages | src/ws.rs:168 | the converted list has the same length, and each element is the conversion of the message at the same position |
| Ollama.ConstructedMessagesConvert | src/ollama.rs:11-17 | messages made by `Message::user` and `Message::assistant` convert to the User and Assistant roles with their content |
| Ollama.FromMessagesAppend | src/ws.rs:168 | converting a concatenation converts each part in place |
| Errors.IntoResponse | src/error.rs:23-38 | a missing template gives 404 with body `template "<n>" does not exist`; a failed render gives 500 with body `failed to render template "<n>"` |
| Errors.IntoResponseInjective | src/error.rs:25-34 | two errors with the same response are the same error |
| ServerErrors.IntoServerFnError | src/server/error.rs:12-21 | always a `ServerError`, with "db error" for database errors and "reqwest error" for client errors |
| ServerErrors.MessageDependsOnVariantOnly | src/server/error.rs:14-18 | two errors convert to the same value exactly when they have the same variant, whatever they wrap |
| Db.MessagesOf | src/db.rs:12-21 | the `WHERE conversation_id = ?` query: the stored messages of one conversation, in table order (its meaning is stated by `Db.MessagesOfSelects`) |
| Db.MessagesOfSelects | src/db.rs:12-21 | a message is in the result exactly when it is stored and belongs to the conversation; an empty table gives none |
| Db.FindConversation | src/db.rs:61-70 | the `WHERE id = ?` lookup: the first stored row with the id, or none (its meaning is stated by `Db.FindConversationFinds`) |
| Db.FindConversationFinds | src/db.rs:61-70 | finds a row exactly when one with that id is stored, and what it finds is such a row |
| Db.MessagesOfAppend | src/db.rs:27-43 | inserting a message adds it at the end of its own conversation's messages and leaves every other conversation's messages unchanged |
| Db.Store.GetConversationMessages | src/db.rs:8-24 | a failure is returned as `DatabaseError`; otherwise the stored messages of the conversation |
| Db.Store.CreateMessage | src/db.rs:27-51 | on success, exactly one row is appended and returned as given; on failure the tables are unchanged |
| Db.Store.GetConversation | src/db.rs:53-73 | a failure is returned; otherwise the stored conversation with that id, or none |
| Db.Store.GetConversations | src/db.rs:75-86 | a failure is returned; otherwise every stored conversation |
| Db.Store.CreateConversation | src/db.rs:88-116 | on success, exactly one row is appended and returned as given; on failure nothing changes |
| Db.Store.CreateConversationIfNotExists | src/db.rs:118-131 | a failed lookup is returned; a stored id returns the stored row and adds nothing; a new id inserts exactly one row, or returns the insert's failure |
| Db.StoreScenario | src/db.rs:150-255 | the store's tests against a fresh store: the created name, lookup of the created row, no second row for an existing id, the created message's fields, a second row for a new id, no messages for an id that was never stored |
| StaticFiles.CacheControl | src/main.rs:140-163 | `cache-control: public, max-age=86400` is inserted exactly when the content type is one of the six listed; every other header, the status and the body are unchanged; other responses pass through untouched |
| StaticFiles.ServeAsset | src/main.rs:86-116 | an unknown path gives a bare 404; otherwise 200 with the asset's bytes, the extension as content type ("" when there is none), and `content-encoding: br` exactly for css and js |
| StaticFiles.ServeAssetRoute | src/main.rs:86-116 | the route as layered is marked cacheable exactly when the asset's bare extension is itself one of the six content types |
| StaticFiles.StylesheetIsNotCached | src/main.rs:100-103 | a stylesheet is served with content type "css" and without `cache-control` |
| StaticFiles.MediaType | src/main.rs:144-151 | css and js map to their media types, and a missing extension maps to "" |
| StaticFiles.ServeAssetWithMediaType | src/main.rs:86-116 | the handler with the media type as content type; everything else as in `ServeAsset` |
| StaticFiles.ServeAssetRouteWithMediaType | src/main.rs:140-163 | css, js, svg, webp, woff2 and png assets are served cacheable for a day; for extensions without '/', nothing else is |
| Stream.TrimStart | src/ws.rs:196-198 | everything removed is whitespace, and the result does not start with whitespace |
| Stream.TrimStartIsSuffix | src/ws.rs:196-198 | the result is the end of the input, unchanged |
| Stream.Fragment | src/ws.rs:196-201 | the fragment a decoded chunk appends: its content trimmed at the start while `is_first_chunk` holds, verbatim afterwards |
| Stream.Consume | src/ws.rs:192-222 | the loop takes at least one item when there is one, and never more than there are |
| Stream.TrimOnlyFirst | src/ws.rs:192-203 | there is one fragment per decoded item; only the first has leading whitespace trimmed, and undecodable items do not use up the trim |
| Stream.ConsumeReply | src/ws.rs:192-224 | the final reply is the start message with the fragments of exactly the items taken appended, whichever way the loop ended |
| Stream.ConsumeSwapCount | src/ws.rs:203-216 | there is one Swap per fragment taken, except a final fragment whose send was refused; never more Swaps than sends allowed |
| Stream.ConsumeSwaps | src/ws.rs:203-216 | the k-th Swap carries the starting content followed by the first k+1 fragments |
| Stream.SwapsGrow | src/ws.rs:203-210 | each Swap and the final reply extend the starting content and are the placeholder with only its content changed; the last Swap is the final reply unless a send was refused |
| Stream.SwapsOrdered | src/ws.rs:203-210 | each Swap's content extends the one before |
| Stream.ConsumeStops | src/ws.rs:205-220 | the loop ends at the stream's end, right after the first `done` chunk, at the first refused send (after exactly the allowed number of Swaps), or at a transport error, and no earlier item could have stopped it |
| Stream.UndecodableIsSkipped | src/ws.rs:193-194 | inserting an undecodable item anywhere changes neither the reply, nor the Swaps, nor how the loop ends |
| Ws.Panics | src/ws.rs:144-179 | the turn panics exactly when the conversation is missing after a successful lookup, when a role in the request does not parse once the prompt is stored and its Append accepted, or when the chunk loop, after the placeholder's Append was accepted, reaches a transport error |
| Ws.Turn | src/ws.rs:133-231 | the turn's result and its effects in order: each failed query returns its error with nothing written; a refused Append of the prompt leaves only the prompt stored; an unreachable server returns its error after the request; otherwise the placeholder, the loop's Swaps and the reply (its properties are the `Turn*` lemmas below; its value is meaningful only where `Panics` does not hold) |
| Ws.Placeholder | src/ws.rs:182 | the placeholder is an empty assistant message in the prompt's conversation |
| Ws.TurnOkEffects | src/ws.rs:143-230 | a turn that returns Ok stores the prompt, queues its Append, makes the streaming request for the history and the prompt, then announces the placeholder, queues the loop's Swaps and stores the reply unless that insert fails |
| Ws.TurnErrEffects | src/ws.rs:143-190 | a turn that returns an error did nothing, or only stored the prompt, or stopped right after the request |
| Ws.TurnSucceeds | src/ws.rs:143-230 | a turn that does not panic returns Ok exactly when its three queries succeed, the channel takes both Appends, and the inference server answers; the reply's insert plays no part |
| Ws.TurnEarlyExits | src/ws.rs:143-164 | a failed query ends the turn with an error before anything is written; a refused Append of the prompt ends it with only the prompt stored |
| Ws.TurnStores | src/ws.rs:152-224 | the rows a turn writes: none when an early query fails; otherwise the prompt first, then the reply only for a turn that reaches its end and only if that insert succeeds |
| Ws.TurnStoresOk | src/ws.rs:152-224 | a successful turn writes the prompt and then the reply, unless that insert fails |
| Ws.TurnStoresErr | src/ws.rs:143-190 | a turn that ends early writes at most the prompt |
| Ws.TurnStoresPromptFirst | src/ws.rs:149-177 | the first effect is always storing the prompt, and a request can only be made third, after the prompt is stored and its Append queued |
| Ws.TurnRequestedOnce | src/ws.rs:152-177 | in a successful turn the prompt is stored and its Append queued, then the streaming request for the converted history and prompt is made as the third effect, and no other effect is a request: it is made exactly once |
| Ws.RequestConverted | src/ws.rs:149-170 | the request messages are the history's conversions, in order, followed by the prompt's |
| Ws.TurnOpening | src/ws.rs:149-177 | once past its queries and the prompt's Append, a turn starts with the prompt stored, its Append queued and the request made |
| Ws.TurnRequest | src/ws.rs:166-170 | the request names the configured model, lists the stored history and then the prompt, each converted, and asks for a stream |
| Ws.TurnUpstreamUnreachable | src/ws.rs:152-190 | when the inference server cannot be reached, the turn returns that error; the prompt is stored and is the only row; its Append is the only frame (no placeholder) |
| Ws.TurnFramesInOrder | src/ws.rs:156-211 | the frames of a successful turn are Append(prompt), Append(placeholder), then the loop's Swaps in order |
| Ws.TurnFrames | src/ws.rs:182-211 | in a successful turn that does not panic, the placeholder is empty and has the reply's id; after the two Appends, the k-th Swap carries the placeholder with the first k fragments taken |
| Ws.SwapFrames | src/ws.rs:192-216 | starting from an empty placeholder, each Swap frame carries all the fragments up to its own |
| Ws.TurnStoresReply | src/ws.rs:192-230 | a successful turn that does not panic stores the prompt, then once the placeholder holding the fragments of exactly the items the loop took; a failed insert is ignored |
| Ws.Inference | src/ws.rs:133-231 | the step-by-step turn returns `Turn`'s result and effects; the message table gains exactly the stored rows; conversations are unchanged |
| Ws.LoadHistory | src/ws.rs:143-150 | a failed lookup or history query is returned as its error; otherwise the conversation's stored messages with the prompt pushed at the end |
| Ws.Respond | src/ws.rs:182-229 | announces the placeholder, queues the loop's Swaps, and stores the reply unless the insert fails |
| Ws.StreamReply | src/ws.rs:192-222 | the `while let` loop returns the reply and Swap frames that the fold `Consume` gives |
| Ws.ContinuesAt | src/ws.rs:192-222 | one step of the loop: a transport error cannot come next in a loop that does not panic; an undecodable item is skipped; a decoded one ends the loop with the whole fold's reply and Swaps, or leaves the rest of the fold to continue with |
| Ws.PanicsIgnoresKnownHistory | src/ws.rs:166-170 | with every stored role known, whether a turn panics does not depend on the stored history |
| Ws.TurnKeepsRolesKnown | src/ws.rs:152-224 | a successful turn keeps every stored role parseable |
| Ws.Serve | src/ws.rs:34-45 | one turn per prompt, each on the table left by the ones before; every turn but the last succeeded; the loop stops early only after a failed turn; the table ends with all their rows in order |
| Ws.FirstStop | src/ws.rs:70-87 | the position of the first frame that is not a decodable prompt: every frame before it is one, and the frame at it is not |
| Ws.Receive | src/ws.rs:70-95 | forwards, in order, the prompts before the first non-prompt frame, as many as the request channel takes; the exit reason names what stopped it |
| Ws.SendAll | src/ws.rs:51-64 | writes the queued frames in order, stopping at the first failed write; it stops early exactly when a write failed |

## Left out

- Supervision of the spawned workers in `handle_socket` (`tokio::spawn`, the channels, `select!` and `abort`) is concurrency. The three loops are modelled one at a time, each over a sequence of inputs. Two consequences are not captured. First, when the sender loop returns, `select!` aborts the inference worker (src/ws.rs:109-116), so storing the reply after a refused Swap send (src/ws.rs:224) races with that abort; the model shows what `inference` does on its own. Second, `Ws.Serve` gives each turn its own `sendLimit`, so a later turn's channel may accept sends after an earlier turn saw one refused, whereas a closed channel stays closed in the source.
- Real I/O is left out: the HTTP request and its byte stream, the SQLite queries, and the WebSocket. The database becomes in-memory tables plus a fault per call. A channel or socket becomes a count of accepted sends. The inference server becomes a failure or a sequence of stream items.
- JSON decoding is abstract. A stream item is given as already decoded or not. A WebSocket text frame is given as a decoded prompt or none. `UserPromptFormMessage` and its conversion into a message are not part of this model.
- The askama templates that render `Append` and `Swap` frames as HTML are left out. A frame carries the message it renders.
- `Uuid::new_v4()` and `Utc::now()` are nondeterministic. Ids and time stamps are parameters.
- The server URL from configuration is left out. The model name is a parameter.
- Models.LowerChar: `to_lowercase` is modelled only for 'A'-'Z' and the Kelvin sign, the characters whose lower case is an ASCII letter. Others are kept as they are. Whether a string parses as a role is still decided exactly. The lower-cased form of other characters is not modelled.
- Stream.IsWhitespace lists the Unicode White_Space characters that `trim_start` removes. It is not derived from the Unicode tables.
- Models.UpdateContent changes the caller's variable in place (`push_str`). It is modelled as a value that the caller reassigns.
- Db.Store.GetConversationMessages returns the rows in table order. The query has no ORDER BY, so the source promises no order.
- Db.Store.GetConversations returns the rows in table order. The query has no ORDER BY, so the source promises no order.
- Db.FindConversation returns the first row with the id. Uniqueness of ids (the table schema) is not modelled.
- Schema constraints (foreign keys, primary keys) are left out; the schema is not part of this model.
- The asset cache (`get_from_path`, `ext`) is not part of this model. Assets are a map from path to extension and bytes.
- `HeaderValue::from_str` of the fixed cache-control value cannot fail, so the model always inserts the header.
- A header map holds one value per name (`HeaderMap::insert` replaces); multi-valued headers are left out.
- ServerErrors.ServerFnError lists only the framework's variants that carry a message.
- Ws.Serve: requires every stored role to be known, and requires that no prompt would panic against an empty history. This is stronger than the source needs: only the history of the prompts' conversations is parsed.
- Ws.Panics: a panic is excluded by precondition. The model does not say what happens after one (the worker ends).
- The non-streamed `OllamaChatResponse` shape is declared but has no operation, because nothing in the core uses it.
- The UI components, the older API and server modules, the HTTP routing, `config.rs`, `build.rs`, and `main()` with its startup are outside the core.

## Findings

| source | as written | input that shows it | evidently intended | confidence | as-written member | corrected member |
|---|---|---|---|---|---|---|
| src/main.rs:100-103 | the asset handler sets `content-type` to the bare file extension ("css", "js") while `cache_control` (src/main.rs:144-153) compares it with media types ("text/css", ...), so no asset is ever marked cacheable | a request for `tailwind.css`: content type "css", no `cache-control` header | stylesheets, scripts and images served with their media type and cached for a day | not executed; medium, since the asset cache that supplies `ext()` is not part of this model | StaticFiles.StylesheetIsNotCached | StaticFiles.ServeAssetRouteWithMediaType |
