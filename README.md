# AI chatbot: conversation store and chat loop

This project models two small pieces of a Gemini-backed chatbot:

- **The web server's in-memory conversation store** (`server.js`, the branches taken when Appwrite is disabled). The store is a process-wide `Map` from conversation id to a record `{ $id, title, userId, createdAt, updatedAt, messages }`. Five handlers act on it: create, list, get, patch title and delete. It is also used by the `/api/chat` turn, which:
  - validates the message;
  - resolves the working history;
  - pushes the user entry, asks the generator, and pushes the model entry;
  - saves both entries to the stored conversation, deriving a title on the first exchange.
- **The terminal `Chatbot`** (`chatbot.ts`). Its `conversationHistory` field is shaped by `chat()` and by the `start()` read loop. The loop skips blank lines, stops on `exit`/`quit`/`bye`, empties the history on `clear`, leaves it alone on `history`/`models`, and chats on anything else.

Modules:

- `Wrappers`: `Option`.
- `Generator`: what the generator is sent and can answer, and the fallback reply.
- `Text`: ECMAScript `trim` and ASCII lower-casing.
- `ServerModel`: each handler as a function from the store before a request to the store after it and the response.
- `Server`: class `LocalConversations`, which runs the handlers in place. It is proved to agree, handler by handler, with `ServerModel`.
- `ServerProperties`: what the handlers promise.
- `Cli`: the class `Chatbot`, with the value-level `ChatTurn`, `Step` and `Run` it is proved against.
- `CliProperties`: what the chat turn and the loop promise.

Nothing is real I/O:

- The generator is a parameter `gen: seq<Content> -> Outcome`. It answers a text, possibly empty, or throws.
- The clock is a parameter `now: int`. One handler reads a single tick.
- `uuidv4()` is an `id` parameter that the caller guarantees is fresh.
- The lines typed at the terminal are a parameter `inputs: seq<string>`.

**A store message list is an alias.** A stored record's message list is a `MessageList` object held by reference, as a JavaScript array is. When `/api/chat` gets a `conversationId` that is stored and no `history`, the working history *is* the stored array, so every push to it writes to the store. The save step then pushes both entries again. The model keeps this behaviour:

- The stored list grows by four entries per turn on that path.
- The first-exchange title rule never fires on that path.
- A generator failure there leaves the user entry in storage.

A turn on a stored conversation sent without `history` stores four entries and keeps the old title (`ServerProperties.TripScenario`). The same turn sent with `history: []` stores two and takes the message as the title (`ServerProperties.TripScenarioWithHistory`). The web client sends neither form on its first turn. It creates a conversation, then pushes the user entry onto its own empty history before posting (`client.js:422-463`), so the history it sends already ends with the message. The generator then sees the message twice; the reply repeats it; the store gets two entries and takes the message as the title (`ServerProperties.TripScenarioFromClient`).

**Where the store's invariant lives.** The store's shape is stated by `ServerModel.WellFormed`: every id once in insertion order, and every record under its own id. It is kept at the value level: `LocalConversations` starts as `Empty`, each of its methods moves `Store()` exactly as the corresponding `ServerModel` function does, and the `ServerProperties.*KeepsShape` lemmas show that those functions keep `WellFormed`. The class invariant `Valid()` says that no two records share a message array and that the ghost `convs` map is what the records show.

## Model

| member | source | states |
|---|---|---|
| Generator.ReplyText | server.js:276 | the reply is the generated text when it is non-empty and the fallback text otherwise; it is never empty (chatbot.ts:59 is the same rule) |
| Text.Trim | chatbot.ts:144 | the result is empty exactly when the line is all white space; otherwise it is the slice of the line that begins and ends with non-space, with only white space cut off either side |
| Text.TrimIgnoresPadding | chatbot.ts:144 | white space added around a line does not change what `trim` gives |
| Text.Lower | chatbot.ts:150 | same length; every character lower-cased, A–Z only |
| ServerModel.Values | server.js:60 | in a well-formed store, the values are the records in insertion order, one per key |
| ServerModel.LookupAll | server.js:60 | when every key is stored, the lookup gives one record per key, in the order of the keys |
| ServerModel.ListedUser | server.js:50 | the listing is for the query's user id when it is present and non-empty, for "guest" otherwise; it is never for "" |
| ServerModel.OwnedBy | server.js:61 | the filter keeps exactly the entries of the given user, and no entry more often than the input holds it |
| ServerModel.OwnedByAppend | server.js:61 | filtering a concatenation concatenates the filtered parts, so the kept entries stay in their input order |
| ServerModel.SortNewestFirst | server.js:62 | the result is ordered by `updatedAt`, newest first; it is a permutation of the input; entries with the same `updatedAt` keep their original order, as a stable sort does |
| ServerModel.ListOp | server.js:50-62 | in a well-formed store, a conversation is listed iff it is stored and its user is the query, or "guest" when the query is absent or empty; the list is newest first and is a permutation of the user's records in insertion order (`Values`, `OwnedByAppend`), with ties kept in that order |
| ServerModel.ValuesAreStored | server.js:60 | in a well-formed store, the array of the map's values holds exactly the stored records |
| ServerModel.CreateOp | server.js:81-100 | the new record has the given id, title (or "New Chat" when falsy), user (or "guest" when absent), no messages and `createdAt == updatedAt == now`; it is stored under its id; every other record is unchanged; the key set grows by the id |
| ServerModel.GetOp | server.js:132-145 | succeeds iff the id is stored, with the record and its messages; otherwise 404 "Conversation not found" |
| ServerModel.PatchOp | server.js:170-185 | succeeds iff the id is stored; only that record changes, taking the title verbatim and `updatedAt == now`; the order is kept; otherwise 404 and the store is unchanged |
| ServerModel.Without | server.js:208 | the order without the deleted id keeps exactly the other keys |
| ServerModel.DeleteOp | server.js:208-219 | succeeds iff the id was stored; the store then lacks exactly that key; otherwise 404 and the store is unchanged |
| ServerModel.DeriveTitle | server.js:311-313 | a message of at most 50 characters is its own title; a longer one gives its first 50 characters followed by "...", 53 in all |
| ServerModel.ToContents | server.js:267-270 | one content per history entry, in order, with the same role and text and no timestamp |
| ServerModel.BaseHistory | server.js:243-258 | the working history is the sent history when there is one; without one it is the stored list of the named stored conversation, and otherwise empty |
| ServerModel.Persist | server.js:299-314 | saving to a stored id appends the timestamped user and model entries, sets `updatedAt`, derives the title exactly when the list was empty, and keeps every other field; no other record, key or the order changes; an id that is not stored leaves the store as it was |
| ServerModel.ChatOp | server.js:231-331 | a falsy message answers 400 and changes nothing; no turn adds or removes a record or reorders keys; a generator failure answers 500; an answer gives a successful reply whose text is the generated text or the fallback. The paths are proved in full by the `ServerProperties.Chat*` lemmas |
| ServerModel.AnswerOp | server.js:276-322 | once the generator has answered, the turn succeeds with that reply; the reply's history is the working history plus the model entry, or the whole stored list when the working history is the stored one; no record is added or removed |
| ServerProperties.CreateKeepsShape | server.js:91-100 | creating under a fresh id keeps the store well formed and appends the id to the insertion order |
| ServerProperties.PatchKeepsShape | server.js:170-180 | a patch keeps the store well formed |
| ServerProperties.DeleteKeepsShape | server.js:208 | a delete keeps the store well formed |
| ServerProperties.ChatKeepsShape | server.js:233-322 | a chat turn keeps the store well formed and creates and removes no record |
| ServerProperties.CreateThenGetAndList | server.js:91-100 | a created conversation can be fetched at once with no messages; it is listed exactly for its own user; every other get answers as before |
| ServerProperties.MissingIdIsNotFound | server.js:132-214 | get, patch and delete of an id that is not stored answer 404 "Conversation not found" and leave the store unchanged |
| ServerProperties.PatchChangesOnlyTitle | server.js:179-180 | a patch of a stored id succeeds; it changes that record's title, verbatim, and `updatedAt` and no other field; no other record or key changes |
| ServerProperties.DeleteThenGet | server.js:208-219 | after a delete the id answers 404; every other get answers as before; the listed values are the old ones without that record |
| ServerProperties.ChatNeedsMessage | server.js:235-240 | a missing or empty message answers 400 "Message is required" and the store is unchanged |
| ServerProperties.ChatWithHistory | server.js:243-316 | with a history sent and a stored id, the stored messages gain exactly the timestamped user then model entries; `updatedAt` is refreshed; the title is derived when the list then holds two entries; the reply is the sent history plus the two new entries; nothing else changes |
| ServerProperties.ChatWithoutStoredConversation | server.js:243-322 | when no stored conversation is named, nothing is stored and the reply is still the working history plus the two new entries |
| ServerProperties.ChatOnStoredList | server.js:253-313 | with no history and a stored id, the working history is the stored list: it gains four entries and the title is never derived; the reply carries the whole stored list |
| ServerProperties.ChatFailsOnStoredList | server.js:261-274 | a generator failure on the stored list answers 500 and leaves the user entry in storage |
| ServerProperties.ChatFailsElsewhere | server.js:243-274 | a generator failure on any other path answers 500 and leaves the store unchanged |
| ServerProperties.ChatSendsHistory | server.js:261-274 | the generator is sent the working history followed by the user's message, and nothing else: two generators that answer those contents alike give the same store and the same response |
| ServerProperties.HandlersKeepStampsOrdered | server.js:95-96 | with a clock that does not go back, create, patch, delete and chat keep `createdAt <= updatedAt` for every record |
| ServerProperties.ListShowsOwner | server.js:50-61 | a stored conversation is listed for no query, and for the empty query, iff its user is "guest"; it is listed for its own non-empty user id |
| ServerProperties.EmptyUserNeverListed | server.js:50 | a record created with the user id "" appears in no listing, since the listing query falls back to "guest" |
| ServerProperties.TripScenario | server.js:243-313 | create "Trip" for u1, then chat "Hi" with the id and no history: the reply is the generator's text, four entries are stored, and the title stays "Trip" |
| ServerProperties.TripScenarioWithHistory | server.js:243-313 | the same turn sent with `history: []` stores exactly the two timestamped entries, takes "Hi" as the title, and replies with the two untimed entries |
| ServerProperties.TripScenarioFromClient | client.js:422-463 | the first turn as the web client sends it, on a new "New Chat" conversation with `[user "Hi"]` as history: the generator is sent "Hi" twice, the reply's history holds "Hi" twice, and the store gets the two timestamped entries and the title "Hi" |
| Server.MessageList.Push | server.js:261-264 | `push` appends the given entries to the array |
| Server.LocalConversations.constructor | server.js:32 | the store starts empty |
| Server.LocalConversations.Create | server.js:91-105 | the method keeps `Valid()`; the new store and the answered record are what `ServerModel.CreateOp` gives |
| Server.LocalConversations.List | server.js:60-67 | the answer is `ServerModel.ListOp` of the store, computed from the records |
| Server.LocalConversations.Get | server.js:132-145 | the answer is `ServerModel.GetOp` of the store |
| Server.LocalConversations.Patch | server.js:170-185 | the method keeps `Valid()`; the new store and the answer are what `ServerModel.PatchOp` gives |
| Server.LocalConversations.Retitle | server.js:179-180 | the record's title and `updatedAt` are assigned in place; its message array stays the same object |
| Server.LocalConversations.Delete | server.js:208-219 | the method keeps `Valid()`; the new store and the answer are what `ServerModel.DeleteOp` gives |
| Server.LocalConversations.ResolveHistory | server.js:243-258 | the working history is the sent history or `[]` in a new array; when no history is sent and the id is stored, it is the stored array itself |
| Server.LocalConversations.PushHistory | server.js:261-264 | the push appends to the working history; it changes the store exactly when that history is a stored array |
| Server.LocalConversations.Save | server.js:299-314 | both entries are appended with the time, `updatedAt` is refreshed, and the title is derived on a list of two; the store changes as `ServerModel.Persist` says, and not at all when the id is not stored |
| Server.LocalConversations.Chat | server.js:233-322 | the method keeps `Valid()`; the new store and the answer are what `ServerModel.ChatOp` gives, the aliasing included |
| Server.LocalConversations.Answer | server.js:276-322 | after the generator answers, the new store and the reply are what `ServerModel.AnswerOp` gives |
| Cli.Contents | chatbot.ts:50-53 | one content per history entry, in order, with the same role and text |
| Cli.Classify | chatbot.ts:144-182 | a line is blank iff it is all white space; a chat line's message is the trimmed line, not lower-cased; every other line is one of the six command words after trimming and lower-casing (which word gives which command: `CliProperties.ClassifyRecognisesCommands`) |
| Cli.ChatTurn | chatbot.ts:41-72 | the history gains the user entry after the old one, and then the model entry exactly when the generator answers; that entry holds the reply, which is never empty (by case: `CliProperties.TurnAnswered`, `CliProperties.TurnFails`) |
| Cli.Step | chatbot.ts:143-186 | a line keeps the loop going iff it is no quit word; `clear` empties the history; blank lines and the other commands leave it as it was; a chat line runs a turn on the trimmed, not lower-cased, line (lengths and pairing: `CliProperties.StepCountsTurn`, `CliProperties.StepKeepsPaired`) |
| Cli.Run | chatbot.ts:140-187 | the loop reads no more lines than there are; when it stops on a quit word that word is the last line read; otherwise it reads every line |
| Cli.Chatbot.constructor | chatbot.ts:28 | the history starts empty |
| Cli.Chatbot.Chat | chatbot.ts:41-72 | the new history and the reply are what `Cli.ChatTurn` gives |
| Cli.Chatbot.Start | chatbot.ts:140-187 | the final history, the number of lines read and whether the loop quit are what `Cli.Run` gives |
| CliProperties.TurnAppends | chatbot.ts:44-65 | a turn keeps the old history as a prefix and follows it with the user entry; it adds one or two entries |
| CliProperties.TurnFails | chatbot.ts:68-71 | when the generator throws, the history gains only the user entry and the reply is the error text |
| CliProperties.TurnAnswered | chatbot.ts:59-67 | when the generator answers, the history gains exactly the user entry and then the model entry, with a non-empty reply |
| CliProperties.TurnKeepsPaired | chatbot.ts:44-65 | an answered turn keeps a history of alternating user and model entries |
| CliProperties.FailedTurnUnpairs | chatbot.ts:68-71 | a failed turn leaves the user entry without an answer |
| CliProperties.StepKeepsPaired | chatbot.ts:142-186 | each line keeps the history alternating user/model, of even length, while the generator answers |
| CliProperties.RunKeepsPaired | chatbot.ts:140-187 | the whole loop keeps the history alternating user/model with a generator that always answers (with only the reached chat lines answered: `RunKeepsPairedWhileAnswered`) |
| CliProperties.StepKeepsPairedAnswered | chatbot.ts:143-186 | a line whose chat turn, if it has one, is answered keeps the history alternating user/model |
| CliProperties.RunKeepsPairedWhileAnswered | chatbot.ts:140-187 | the loop keeps the history alternating user/model whenever every chat line it reaches is answered at the contents that line sends; no other turn needs to succeed |
| CliProperties.StepCountsTurn | chatbot.ts:143-186 | with a generator that always answers, a line other than `clear` adds two entries when it chats and none otherwise |
| CliProperties.RunCountsTurns | chatbot.ts:142-186 | with no `clear` and a generator that always answers, the history grows by exactly two entries per chat line before the first quit word |
| CliProperties.RunCountsTurnsSinceClear | chatbot.ts:142-186 | with a generator that always answers, the final history holds exactly two entries per chat line since the last `clear` before the first quit word, counting the exchanges it started with (with only the reached chat lines answered: `RunCountsWhileAnswered`) |
| CliProperties.StepCountsAnswered | chatbot.ts:143-186 | a line other than `clear` whose chat turn, if it has one, is answered adds two entries when it chats and none otherwise |
| CliProperties.RunCountsWhileAnswered | chatbot.ts:142-186 | whenever every chat line the loop reaches is answered, the final history holds exactly two entries per chat line since the last `clear`, counting the exchanges it started with |
| CliProperties.RunFromClear | chatbot.ts:159-162 | from any line up to a `clear` with no quit word in between, the loop continues after the `clear` exactly as a loop started on an empty history, having read the lines up to the `clear` |
| CliProperties.ClearRepairsPairing | chatbot.ts:159-162 | whatever happened before a `clear` that no quit word precedes, failed turns included, if every chat line after it is answered the final history alternates user/model and holds two entries per chat line after the `clear` |
| CliProperties.RunSkipsNoQuit | chatbot.ts:153-157 | no line before the last line read is a quit word |
| CliProperties.RunStopsAtFirstQuit | chatbot.ts:153-157 | once a line is a quit word, the loop has quit at that line or before |
| CliProperties.CommandsKeepHistory | chatbot.ts:146-182 | lines that neither chat nor clear leave the history unchanged |
| CliProperties.RunGrowth | chatbot.ts:140-187 | each line adds at most two entries to the history |
| CliProperties.ClassifyRecognisesCommands | chatbot.ts:150-182 | after trimming and lower-casing, a line quits iff it is "exit", "quit" or "bye"; clears iff it is "clear"; shows the history iff it is "history"; lists models iff it is "models"; and chats iff it is not blank and none of these |
| CliProperties.ClassifyIgnoresPadding | chatbot.ts:144 | white space around a line does not change how it is classified |
| CliProperties.ClassifyIgnoresCase | chatbot.ts:150-182 | lines that agree after trimming and lower-casing are the same command, or are both chat lines |
| CliProperties.ExampleBlankLine | chatbot.ts:146-148 | a worked case: a line of spaces and a tab is classified as blank, so the loop skips it |

## Left out

- All Appwrite branches of `server.js`, and `appwrite.service.js` and `appwrite.config.js`. These are network calls whose behaviour is not visible; the store is modelled with Appwrite disabled.
- The generator call and its errors. The generator is a function from contents to an outcome, so two calls with the same contents give the same outcome.
- `/api/models`, `/api/status` and `listAvailableModels`: network fetches and console output only. In the loop, `models` is a command that leaves the history unchanged.
- Express routing and JSON parsing, static serving, the API-key check at start-up, readline and every console message.
- Concurrency between requests across `await`. Each request is one atomic step.
- Real dates and ids. `new Date().toISOString()` is an integer tick `now`, and the sort, which subtracts the parsed dates, compares those ticks. `uuidv4()` is a fresh id supplied by the caller.
- Request fields that are not strings. `message`, `conversationId`, `title` and `userId` are absent or strings. `history` is absent or a list of entries.
- The 500 answers that the `catch` blocks of the five store handlers would give. The in-memory branches throw nothing. The chat handler's 500 on a generator failure is modelled.
- `Text.Lower`: lower-cases A–Z only. JavaScript's `toLowerCase` also maps other letters, but the command words are ASCII, so the result of each comparison is the same.
- `Text.Trim`: works on characters, with the ECMAScript white-space and line-terminator set. UTF-16 code units and surrogate pairs are not modelled. `DeriveTitle`'s 50-character cut is likewise in characters, not UTF-16 units.
- `Cli.Chatbot.Start`: ends when the lines run out, as well as on a quit word. The program itself would wait for more input.
- The text `client.js` prints, its DOM code and `formatDate`.
