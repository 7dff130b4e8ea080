# Flower-shop assistant bot: verified model of its bookkeeping core

This project is a Dafny model of the bookkeeping around a Telegram chatbot for a flower shop. The bot sends each text message to a Rasa intent classifier and to an OpenAI chat-completion endpoint. The model covers:

- **Per-user history** (`Context`, from `src/assistant/context_manager.py`). This is a class holding a map from user id to a bounded FIFO buffer, the Python `deque(maxlen=N)` with N = 10 by default. The buffer is created lazily. At capacity, an append evicts the oldest turn. `get_history` returns a copy, or an empty list for an unknown user. With a negative capacity no buffer is ever created, so every `add_message` raises and nothing is stored. The FIFO law is proved by `ReplayIsWindow`: after any sequence of appends, the buffer is the last N messages in append order.
- **Prompt assembly** (`Prompts`, from `src/assistant/prompts.py`). This is a pure function: the system message, then the history, then the current text as a `'user'` message. An inverse reads a prompt back.
- **Rasa reply extraction** (`RasaClient`, from `src/assistant/rasa_client.py`). The input is the outcome of the HTTP exchange, modelled as a small JSON datatype. A 200 reply whose body is a non-empty list is scanned from the end for the latest `'user'` event. The scan is a loop method, proved against a recursive specification. A dictionary body is read directly. Python's `.get` on a non-dictionary raises, so that case gives `None`, as do every other outcome and every exception.
- **User upsert** (`Database`, from `src/database/database.py`). A session class holds the `users` rows in a map. `get_or_create_user` creates an absent user with a count of 1, or increments a present user's count and keeps their name. A counting law covers any sequence of calls.
- **The two handlers** (`Handlers`, from `src/bot/handlers.py`). `/start` sends the welcome text. The message handler uses the module-level busy set `processing_users`: a busy user gets a wait notice and nothing else happens. Otherwise the user is added to the set, then comes the `try` body: log, store the user turn, classify, read the history, build the prompt, generate, fall back when the answer is empty, send, log, store the assistant turn. The `except` branch sends the generic error, and the `finally` branch removes the user from the set.
  - One call is a method of class `Bot`, proved against a pure function `Turn` that gives its effect. The lemmas about `Turn` state the handler's promises.
  - External results are parameters: the Rasa HTTP outcome, the OpenAI completion, and which logging or sending step raises.
  - The four fixed reply texts (greeting, wait notice, apology, generic error) are a `Texts` record. `BotTexts` holds them exactly as written, and the `Bot` constructor sets the bot's texts to `BotTexts`. The lemmas about `Turn` hold for any texts, so they also hold for these.
  - The effect of a turn records the history `build_prompt` was called with. `GeneratorInput` rebuilds the message list the endpoint received from it.

As written, the handler calls `build_prompt` with three arguments (`src/bot/handlers.py:60`), but `build_prompt` accepts two (`src/assistant/prompts.py:12`). So every admitted message raises `TypeError` and ends in the generic error. The model reproduces this in `Bot.HandleTextMessage`. `Bot.HandleTextMessageFixed` models the evidently intended handler. Both call the shared `Bot.Handle`, which takes the call site as a parameter.

Three facts about the code shape the model:
- The code has no guided dialogue. `src/bot/states.py` only declares four states, and no handler reads or sets them.
- The handler never calls the user registry. `get_or_create_user` is modelled on its own.
- A failed classification is passed on as `None`.

## Model

| member | source | states |
|---|---|---|
| `Context.Window` | src/assistant/context_manager.py:26-29 | the reference definition of a bounded buffer: exactly the last min(len, N) elements, in order |
| `Context.Appended` | src/assistant/context_manager.py:26-29 | one `deque.append` on a buffer with `maxlen` N: the buffer stays within N; with N > 0 it grows by one below capacity, keeps its length at capacity, and its newest element is the appended `{role, content}` |
| `Context.Replay` | src/assistant/context_manager.py:25-29 | a sequence of appends, in order: the buffer stays within N, and with N > 0 its newest element is the last message appended |
| `Context.AppendedTwice` | src/assistant/context_manager.py:28-29 | after two appends with `maxlen > 0` the second message is the newest, and with `maxlen > 1` the first sits right before it |
| `Context.AppendedEvictsOldest` | src/assistant/context_manager.py:26-29 | at capacity, the last N of the old buffer plus the message are the old buffer without its oldest element, then the message; the append removes exactly one copy of the oldest element and adds the message |
| `Context.AppendedIsWindow` | src/assistant/context_manager.py:26-29 | one `deque.append` step equals the last N of the old buffer plus the message |
| `Context.ReplayIsWindow` | src/assistant/context_manager.py:25-29 | FIFO law: after any sequence of appends, the buffer is the last N messages of everything appended, in append order (for a fresh user, the last min(k, N)) |
| `Context.ContextManager.constructor` | src/assistant/context_manager.py:9-13 | starts with no buffers and the given capacity (10 for the module instance) |
| `Context.ContextManager.AddMessage` | src/assistant/context_manager.py:15-29 | creates the buffer lazily and appends with eviction; a negative capacity raises and stores nothing; every other user's buffer is unchanged; all buffers stay within capacity |
| `Context.ContextManager.GetHistory` | src/assistant/context_manager.py:31-42 | returns the user's buffer, or `[]` for an unknown user, and changes nothing |
| `Prompts.BuildPrompt` | src/assistant/prompts.py:12-28 | the result has length \|history\| + 2: the system message first, then the history in order, then the `'user'` message with the current text |
| `Prompts.SplitPrompt` | src/assistant/prompts.py:20-27 | inverse of `build_prompt`: whatever is read back rebuilds exactly the given list, and a list `build_prompt` cannot produce gives `None` |
| `Prompts.SplitBuildPrompt` | src/assistant/prompts.py:20-27 | round trip: the history and text a prompt was built from can be read back from it |
| `Prompts.BuildPromptInjective` | src/assistant/prompts.py:20-27 | two prompts are equal if and only if they were built from the same history and text |
| `RasaClient.ParseFields` | src/assistant/rasa_client.py:41-48 | reads `intent.name` and `entities` from a `parse_data` value: a value that is not a dictionary makes `.get` raise and gives `None`, and the default `{}` gives a `None` intent name and `[]`; the dictionary cases are stated by `ParseFieldsOfObject` |
| `RasaClient.ParseDataOf` | src/assistant/rasa_client.py:41-42 | `event.get('parse_data', {})`: the stored value, or `{}` when the key is missing |
| `RasaClient.IsUserEvent` | src/assistant/rasa_client.py:39 | an event counts as a `'user'` event exactly when it is a dictionary whose `event` key holds the string `'user'` |
| `RasaClient.RasaIntent` | src/assistant/rasa_client.py:27-59 | the specification of the client's result for each HTTP outcome; `GetRasaIntent` is proved equal to it and the lemmas below state its cases |
| `RasaClient.Get` | src/assistant/rasa_client.py:39-48 | `.get(key, default)` succeeds exactly on a dictionary, giving the stored value or the default |
| `RasaClient.ScanFromEnd` | src/assistant/rasa_client.py:38-43 | a found index is in range and holds a `'user'` event |
| `RasaClient.ScanFromEndFound` | src/assistant/rasa_client.py:38-43 | the scan finds index i if and only if event i is a `'user'` event and every later event is a dictionary without `event == 'user'` |
| `RasaClient.ScanFromEndNotFound` | src/assistant/rasa_client.py:38-43 | the scan finds nothing if and only if every event is a dictionary and none is a `'user'` event |
| `RasaClient.ScanFromEndRaised` | src/assistant/rasa_client.py:38-43 | the scan raises if and only if some non-dictionary event follows every `'user'` event |
| `RasaClient.ScanLatestUserEvent` | src/assistant/rasa_client.py:38-43 | the reverse loop with early return computes exactly the scan specification |
| `RasaClient.GetRasaIntent` | src/assistant/rasa_client.py:24-59 | the client's result for any HTTP outcome equals the extraction specification `RasaIntent` |
| `RasaClient.NotOkGivesNone` | src/assistant/rasa_client.py:51-59 | a non-200 status, a connection error, any other exception or an undecodable body gives `None` |
| `RasaClient.ResultOnlyFromOk` | src/assistant/rasa_client.py:27-50 | a result comes only from a 200 reply whose body is a non-empty list or a dictionary |
| `RasaClient.ListReadsLatestUserEvent` | src/assistant/rasa_client.py:36-43 | for a list, the result is read from the `parse_data` of the latest `'user'` event; a missing `parse_data` gives a `None` intent name and `[]`, and a `parse_data` that is not a dictionary gives `None` |
| `RasaClient.ListWithoutUserEventGivesNone` | src/assistant/rasa_client.py:36-50 | a list with no `'user'` event gives `None` |
| `RasaClient.ListWithStrayEventGivesNone` | src/assistant/rasa_client.py:38-59 | a non-dictionary event met before any `'user'` event in the reverse scan raises and gives `None` |
| `RasaClient.ParseFieldsOfObject` | src/assistant/rasa_client.py:45-49 | a missing `intent` gives a `None` intent name; whenever the read succeeds, `entities` is the stored value, or `[]` when missing; `intent.name` is read when present; the lookups fail only when `intent` is not a dictionary |
| `RasaClient.DictAndScalarBodies` | src/assistant/rasa_client.py:36-50 | a dictionary body is read directly; an empty list, a string, a number, a boolean or null gives `None` |
| `Database.Upserted` | src/database/database.py:21-31 | an absent user is created with the given name and count 1; a present user's count rises by exactly 1 and their name is kept; no other row changes |
| `Database.UpsertAll` | src/database/database.py:21-31 | the table after a sequence of `get_or_create_user` calls, applied in order; `UpsertAllCounts` states its counting law |
| `Database.UpsertAllCounts` | src/database/database.py:23-28 | after any sequence of calls, a user's count is the old count (0 if absent) plus the number of calls for them, and the name is the stored one or that of their first call |
| `Database.Session.GetOrCreateUser` | src/database/database.py:21-31 | the table becomes the upserted table and the returned row is the one stored under the id |
| `Handlers.OpenAIResponse` | src/assistant/openai_client.py:26-37 | an empty message list gives `None` without a request; otherwise the endpoint's answer |
| `Handlers.ReplyText` | src/bot/handlers.py:65-66 | a missing or empty answer becomes the apology text and any other answer is kept, so with a non-empty apology the sent text is never empty |
| `Handlers.CallBuildPrompt` | src/bot/handlers.py:60 | the call succeeds if and only if no extra positional argument is passed; three arguments raise `TypeError` |
| `Handlers.PromptHistoryAt` | src/bot/handlers.py:57-60 | the history `build_prompt` accepts at each call site: none as written, and the stored history without its newest turn when corrected |
| `Handlers.Answered` | src/bot/handlers.py:63-77 | the end of a turn after the endpoint answered: send, log and store the `'assistant'` turn, with a raising send or log leading to the generic error instead |
| `Handlers.Served` | src/bot/handlers.py:54-77 | the `try` body after the user turn is stored: a failed `build_prompt` call leads to the generic error, otherwise the fallback-corrected answer goes to `Answered` |
| `Handlers.Turn` | src/bot/handlers.py:41-77 | the effect of one handler call: the wait notice for a busy user, the generic error when storing the user turn fails, otherwise `Served` of the history with the user turn appended; the lemmas below state its promises |
| `Handlers.BusyOnlyWaits` | src/bot/handlers.py:41-43 | a busy user gets only the wait notice: no history change, no request |
| `Handlers.AsWrittenAlwaysFails` | src/bot/handlers.py:45-82 | as written, every admitted message gets exactly the generic error and no request is made; the only history change is the user turn, absent if the user log raises |
| `Handlers.RepliesNonEmpty` | src/bot/handlers.py:41-77 | with non-empty fixed texts, every reply goes to the user's chat and is non-empty; `BotTextsNonEmpty` discharges that condition for the bot's own texts |
| `Handlers.BotTextsNonEmpty` | src/bot/handlers.py:24-75 | the greeting, the wait notice, the apology and the generic error as written are all non-empty |
| `Handlers.GeneratorSeesStoredUserTurn` | src/bot/handlers.py:51-63 | the endpoint is asked only after the user turn is stored; the corrected prompt is the system message plus the stored history, whose newest turn is the current text |
| `Handlers.SuccessStoresAssistantTurn` | src/bot/handlers.py:63-71 | on success, one reply is sent (the answer or the apology), and that text becomes the newest `'assistant'` turn, right after the user turn |
| `Handlers.FaultStoresNoAssistantTurn` | src/bot/handlers.py:73-77 | on any exception, the generic error is the last reply and no `'assistant'` turn is stored |
| `Handlers.CorrectedFaultFree` | src/bot/handlers.py:51-71 | corrected, with nothing raising: the prompt is built from the stored history without its newest turn, and the answer (or the apology) is sent once and stored as the newest `'assistant'` turn after the user turn |
| `Handlers.PromptRepeatsCurrentTurn` | src/bot/handlers.py:51-60 | the prompt built from the post-append history holds the current text twice, as its last two messages |
| `Handlers.PromptRepeatsExample` | src/bot/handlers.py:51-60 | a new user's first message "hi" yields the prompt [system, "hi", "hi"] |
| `Handlers.FixedPromptHoldsStoredHistory` | src/bot/handlers.py:57-60 | building from `history[:-1]` gives the system message plus the stored history, with the current text once |
| `Handlers.Bot.constructor` | src/bot/handlers.py:13 | the busy set starts empty, the shared history is empty with capacity 10, and the fixed texts are the module's own |
| `Handlers.Bot.HandleStart` | src/bot/handlers.py:16-30 | sends the welcome text unless a step before the send raises; touches neither the busy set nor the history |
| `Handlers.Bot.Send` | src/bot/handlers.py:69 | `message.answer` appends exactly the given reply to the chat and touches no history |
| `Handlers.Bot.StoreUserTurn` | src/bot/handlers.py:48-51 | the user turn is stored, and the stored buffer is the old one with the text appended, unless the user log raises or the capacity is negative; otherwise nothing changes |
| `Handlers.Bot.Respond` | src/bot/handlers.py:63-71 | for a prompt built by `build_prompt`, the answer (or the apology) is sent; a raising send or log sends the generic error instead of storing the `'assistant'` turn; this equals `Answered` |
| `Handlers.Bot.Generate` | src/bot/handlers.py:54-71 | after the user turn is stored: the prompt call raises at the written call site and sends the generic error; the corrected call builds from `history[:-1]`; this equals `Served` |
| `Handlers.Bot.Serve` | src/bot/handlers.py:46-77 | the `try`/`except` body for an admitted user equals `Turn` of the old state, and the capacity invariant is kept |
| `Handlers.Bot.Handle` | src/bot/handlers.py:33-82 | the busy set is the same after the call on every path; the replies, the history and the history the prompt was built from equal `Turn` of the old state |
| `Handlers.Bot.HandleTextMessage` | src/bot/handlers.py:33-82 | as written: the wait notice when busy, otherwise exactly the generic error; the busy set is restored; the history gains only the user turn |
| `Handlers.Bot.HandleTextMessageFixed` | src/bot/handlers.py:33-82 | corrected: on the fault-free path the prompt is built from the stored history without its newest turn, and the reply (the answer or the apology) is sent and stored as an `'assistant'` turn; in all cases it matches `Turn` |

## Findings

| source | as written | input that shows it | evidently intended | confidence | as-written member | corrected member |
|---|---|---|---|---|---|---|
| src/bot/handlers.py:60 | `build_prompt(history, user_text, rasa_data)` passes three positional arguments to a function that takes two (src/assistant/prompts.py:12), so it raises `TypeError` | any text message from a user who is not busy | `build_prompt(history, user_text)`, so the message reaches the endpoint. The corrected member also applies the fix of the next row, building from `history[:-1]`; dropping only the extra argument would give the prompt of `PromptRepeatsCurrentTurn` | high (not executed) | `Handlers.AsWrittenAlwaysFails` | `Handlers.Bot.HandleTextMessageFixed` |
| src/bot/handlers.py:51-60 | the current text is stored in the history at line 51, and `build_prompt` appends it again, so the prompt holds it twice | a new user's first message "hi" gives [system, "hi", "hi"] | the prompt holds the current text once: `build_prompt(history[:-1], user_text)` | medium (not executed) | `Handlers.PromptRepeatsExample` | `Handlers.FixedPromptHoldsStoredHistory` |

## Left out

- Network transport is not modelled: the aiohttp POST to Rasa and aiogram's `message.answer`. Rasa's outcome is an input, and a send is appended to `Bot.sent`. A send (`Bot.Send`) fails only where `Fault` says so. The `message.answer` inside the `except` branch always succeeds, because an exception escaping the handler is aiogram's concern.
- Logging (`src/assistant/logger.py`) is reduced to a step that may raise (`Fault`). Its file output has no read path.
- `src/assistant/openai_client.py` beyond its empty-list rule is left out, because it wraps the SDK. The completion is an input.
- Concurrency between tasks is not modelled. The busy-set guard is proved per call, sequentially.
- aiogram's routing of `/start` to `handle_start` and of everything else to `handle_text_message` is left out. The filters are framework code.
- Non-text messages are not modelled. For those `message.text` is `None`; the model's text is always a string.
- A reply goes to the user's own chat. Private chats are assumed, so the chat id equals the user id.
- `deque(maxlen=None)`, an unbounded buffer, is left out. The capacity is typed `int`.
- Python aliasing is not modelled: `list(deque)` is a shallow copy, and `build_prompt` shares the history's dictionaries. Sequences of values capture the copies but not the shared dictionaries.
- JSON numbers are integers. The extraction only compares strings and checks types.
- The database engine, table creation, `commit`, and the `created_at`/`updated_at` timestamps are left out (`src/database/database.py:1-18`, `src/database/models.py`). Commit is taken as atomic and successful.
- `message_count` is unbounded. The model has no 64-bit limit.
- `src/bot/states.py` is left out: it declares dialogue states that no handler reads or sets.
- `src/bot/bot.py` and `src/config.py` (startup, polling, environment) are left out: they are I/O.
- The message list sent to the endpoint is not returned by the handler methods. They return the history `build_prompt` was called with, and `Bot.Respond` requires the prompt to be `build_prompt` of that history. `GeneratorInput` and `GeneratorSeesStoredUserTurn` then state what the endpoint received.
- The order of the user-turn store and the Rasa call is not stated. `get_rasa_intent` receives only the user id and the text and never reads the history, so in the model that order has no observable effect.
- Every awaited call is assumed to return. The source sets no timeout: if the Rasa request, the OpenAI request or `message.answer` never returns, the `finally` branch never runs and the user stays in `processing_users`. The busy set is proved restored only for calls that return.
