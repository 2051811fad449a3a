# Terai chat core in Dafny

A model of the state-keeping core of Terai, a terminal chat client that talks
to Google Gemini or OpenAI. The model covers:

- **Conversation history** (`ChatHistory`). It is a list of role/content
  messages. You can append to it, clear it, take its most recent exchanges,
  and project it into the two request shapes the providers expect.
- **Exchange step** (`SessionManager.get_ai_response`). It builds the request
  from the history plus the new user turn. It commits the user/assistant pair
  only when a non-empty reply comes back, then trims the history to the newest
  `max_history_length` messages.
- **Stream accumulation** (`extract_text_from_chunk`, the markdown and plain
  formatters, `StreamHandler`). A chunk is a Gemini chunk with a `text`, or an
  OpenAI chunk with `choices[0].delta.content`. Both formatters return the
  in-order concatenation of the non-empty extracted pieces.
- **Registry and selection** (`ClientManager`, `ProviderManager`). The
  registry maps provider names to client adapters in insertion order and
  numbers them from "1". The current provider and model change through
  numbered prompts that can be cancelled.
- **Menu dispatch and validators** (`ChatHandler.process_user_input`,
  `validate_response`, `format_provider_name`, `Settings` and
  `validate_api_keys`).
- **The older single-provider loop** of the entry script (`chat_loop`,
  `change_model` and `get_available_models` in `main.py`). It keeps a flat
  list of strings cut to its last twenty entries.

Modules follow the source files:

| module | source |
|---|---|
| `ChatModels` | models/chat_models.py |
| `Sessions` | handlers/session_manager.py |
| `Formatters` | utils/formatters.py |
| `Streams` | handlers/stream_handler.py |
| `Providers` | handlers/provider_manager.py |
| `Clients` | clients/__init__.py, with the model tables and `stream_response` of the two adapters |
| `Terminal` | main.py |
| `Chat` | handlers/chat_handler.py |
| `Helpers` | utils/helpers.py |
| `Config` | config/settings.py |

Four helper modules hold the Python semantics the core relies on:

- `Wrappers` holds `Option` and `Outcome`.
- `PyText` holds `str.strip`, `lower`, `upper` and `str(n)`.
- `PySlice` holds `s[-n:]`, including `s[-0:]`, which is the whole list.
- `Dicts` holds insertion-ordered dicts as lists of pairs, numbered menus, and
  the shared "key, else 'cancel', else invalid" prompt rule.

The objects whose fields the source updates are classes:

- `ChatHistory`
- `SessionManager`
- `ClientManager`
- `ProviderManager`
- `ChatHandler`

`ChatHistory`'s methods state the new list directly.
`SessionManager.CommitExchange` is stated against `Sessions.TrimHistory`.
Every other state-changing method is stated against a pure function of the
old state: `Sessions.Exchange`, `Providers.ProviderChoice`,
`Providers.ModelChoice` or `Clients.Registered`. The lemmas beside those
functions state what the source promises. The loops of the formatters and
of `chat_loop` are methods with loop invariants. They are proved equal to
`Formatters.Concat`, `Terminal.StreamText` and `Terminal.Run`.

The provider SDKs are a parameter, `network`. It maps a request and a model
name to the chunk stream, or to `None` when the SDK raises. The entry
script's loop calls the Gemini SDK through `sdk`, which also takes the number
of the call, so that a message that failed can succeed when typed again. The answer typed
at a selection prompt and the lines typed at the chat prompt are parameters
too.

## Model

| member | source | states |
|---|---|---|
| PyText.Strip | handlers/chat_handler.py:59 | the stripped text is no longer than the input, is empty exactly when the input is all whitespace (Python's whitespace set), and does not start or end with whitespace |
| PyText.StripKeepsMiddle | handlers/chat_handler.py:59 | the stripped text is a contiguous slice of the input with only whitespace before and after it |
| PyText.Lower | handlers/chat_handler.py:59 | same length as the input; each character is lower-cased |
| PyText.Upper | utils/helpers.py:22 | same length as the input; each character is upper-cased |
| PyText.NatToString | clients/__init__.py:42 | `str(n)` is a non-empty string of decimal digits, with at least two digits from 10 on and no leading zero for n >= 1 |
| PyText.NatToStringValue | clients/__init__.py:42 | reading the digits of `str(n)` back as a decimal number gives n |
| PyText.NatToStringInjective | clients/__init__.py:42 | different numbers give different strings, so the numbered keys of a menu are distinct |
| PySlice.Last | models/chat_models.py:22 | `s[-n:]`: for n >= 1 it is the suffix of length min(n, len s); for n = 0 it is the whole list; for negative n it drops the first -n elements |
| Dicts.Keys | clients/__init__.py:42 | `list(d.keys())`: one key per item, in insertion order |
| Dicts.Get | clients/__init__.py:46 | the lookup succeeds exactly when the key is present |
| Dicts.GetStored | clients/__init__.py:46 | a found value is the one stored under that key |
| Dicts.Put | clients/__init__.py:19 | after the assignment the key maps to the new value and every other key is unchanged |
| Dicts.PutKeys | clients/__init__.py:17-35 | assigning a new key appends it to the key order; assigning an existing key keeps the order |
| Dicts.PutKeepsUniqueKeys | clients/__init__.py:17-35 | an assignment keeps every key stored at most once |
| Dicts.UniqueKeysGet | clients/__init__.py:44-46 | with unique keys, looking up the key of any item gives that item's value |
| Dicts.Enumerate | clients/__init__.py:42 | entry i is `(str(i+1), xs[i])`, with the same length as the list |
| Dicts.EnumerateSelects | clients/__init__.py:42 | looking up `str(i+1)` in the numbered menu gives the i-th item |
| Dicts.EnumeratePicksEntry | handlers/provider_manager.py:36-37 | any key found in the numbered menu picks one of the listed items |
| Dicts.Resolve | handlers/provider_manager.py:34-48 | the stripped answer selects the entry under it exactly when it is a key; otherwise it cancels exactly when it is 'cancel' in any case; otherwise it is invalid |
| Config.NewSettings | config/settings.py:7-25 | the keys are as given; the default models are "gemini-2.0-flash" and "gpt-4o"; history length is 20, max tokens 2000, markdown on, refresh rate 10 |
| Config.ValidateApiKeys | config/settings.py:27-31 | passes exactly when at least one key is set and non-empty, and otherwise fails with the "No API keys found" message |
| ChatModels.ChatHistory.constructor | models/chat_models.py:13-14 | a new history is empty |
| ChatModels.ChatHistory.AddMessage | models/chat_models.py:16-18 | exactly one message with the given role and content is appended, and the earlier messages are unchanged |
| ChatModels.ChatHistory.GetRecentMessages | models/chat_models.py:20-22 | for n >= 1 exchanges, the suffix of length min(2n, len); for 0, the whole list; for negative n, the list without its first -2n messages |
| ChatModels.ChatHistory.Clear | models/chat_models.py:24-26 | afterwards the list is empty and the length is 0 |
| ChatModels.ChatHistory.ToGeminiFormat | models/chat_models.py:28-30 | the contents in order, with the same length |
| ChatModels.ChatHistory.ToOpenAIFormat | models/chat_models.py:32-34 | for each index, a record with that message's role and content |
| ChatModels.ChatHistory.Length | models/chat_models.py:36-38 | equals the number of messages |
| ChatModels.OpenAIFormatLossless | models/chat_models.py:32-34 | the OpenAI projection loses nothing: reading the records back gives the messages |
| ChatModels.GeminiIsOpenAIContents | models/chat_models.py:28-34 | the Gemini projection is the content column of the OpenAI projection |
| ChatModels.ExchangeSurfaces | models/chat_models.py:28-34 | a history ending with a user/assistant pair shows that pair at the end of both projections |
| Formatters.ExtractTextFromChunk | utils/formatters.py:44-57 | a non-empty `text` wins over any choices; otherwise the first choice's non-None delta content; otherwise ""; a non-empty result always comes from one of those two fields |
| Formatters.ExtractIsProviderAgnostic | utils/formatters.py:44-57 | a Gemini text chunk yields its text, an OpenAI delta chunk yields its content (or "" for None), and a chunk with both yields the text |
| Formatters.Concat | utils/formatters.py:9-17 | the reply a formatter accumulates: the extracted text of each chunk, in order |
| Formatters.ConcatIsJoinOfNonEmptyDeltas | utils/formatters.py:13-17 | the accumulated reply is the in-order concatenation of the non-empty extracted pieces |
| Formatters.ConcatAppend | utils/formatters.py:13-17 | accumulation distributes over splitting the stream |
| Formatters.SilentStreamIsEmpty | utils/formatters.py:13-17 | a stream in which no chunk yields text accumulates to "" |
| Formatters.HelloStream | utils/formatters.py:13-17 | two text chunks "Hel" and "lo" accumulate to "Hello" |
| Formatters.FormatMarkdownStream | utils/formatters.py:7-28 | returns the accumulated reply; its loop keeps the displayed text equal to the reply so far |
| Formatters.FormatPlainStream | utils/formatters.py:30-42 | returns the same accumulated reply as the markdown formatter |
| Streams.HandleStream | handlers/stream_handler.py:11-16 | the returned text is the accumulated reply, whichever formatter and style are chosen |
| Streams.HandleGeminiStream | handlers/stream_handler.py:18-20 | the cyan dispatch returns the accumulated reply |
| Streams.HandleOpenAIStream | handlers/stream_handler.py:22-24 | the green dispatch returns the accumulated reply |
| Streams.RenderStylesAgree | handlers/stream_handler.py:13-16 | markdown and plain rendering return the same text |
| Clients.Client.AvailableModels | clients/gemini_client.py:15-21 | each adapter offers a non-empty table of models |
| Clients.ModelTablesNumbered | clients/gemini_client.py:15-21 | each adapter's table is keyed "1" to "4" in order, and its first model is the provider's default model |
| Clients.Reply | clients/gemini_client.py:39-53 | the adapter's result is None exactly when the SDK raised, and otherwise the accumulated reply |
| Clients.StreamResponse | clients/gemini_client.py:33-53 | an SDK failure gives None; otherwise the accumulated reply of the stream |
| Clients.RegisteredFromEmpty | clients/__init__.py:15-35 | "gemini" is registered exactly when its key is set and the client builds, "openai" likewise, Gemini first; one failing does not stop the other |
| Clients.NoKeysNoClients | clients/__init__.py:17-38 | without any API key no provider is registered, so setup fails |
| Clients.ClientManager.constructor | clients/__init__.py:9-12 | a new manager keeps the settings and starts with no clients |
| Clients.Registered | clients/__init__.py:17-35 | the registration function: "gemini" is put when its key is set and its client builds, then "openai" under the same rule |
| Clients.ClientManager.SetupClients | clients/__init__.py:15-38 | the registry becomes the registration function of the old one, and keys stay unique; setup fails with "No AI providers configured!" exactly when the registry is empty |
| Clients.ClientManager.GetAvailableProviders | clients/__init__.py:40-42 | `str(i+1)` maps to the i-th registered name, for every registered index |
| Clients.ClientManager.GetClient | clients/__init__.py:44-46 | returns a client registered under the name, and None exactly when the name is not registered |
| Sessions.Exchange | handlers/session_manager.py:13-41 | the exchange step: no client gives the error text; a None or empty reply gives the apology; otherwise the reply is returned and the trimmed history ends with the new pair |
| Sessions.TrimHistory | handlers/session_manager.py:35-37 | with a limit >= 1 the result is the newest min(len, limit) messages, oldest dropped first; a limit of 0 keeps everything; a negative limit drops the first -limit messages |
| Sessions.TrimKeepsExchangeLog | handlers/session_manager.py:35-37 | an even limit never splits a user/assistant pair |
| Sessions.FailedExchangeKeepsHistory | handlers/session_manager.py:13-15 | with no client, or with a None or empty reply, the history is unchanged and the error or apology text is returned |
| Sessions.SuccessfulExchangeCommits | handlers/session_manager.py:30-39 | a non-empty reply is returned verbatim, and the history is the newest entries of old history + (user, reply), ending with that pair |
| Sessions.ExchangeKeepsInvariant | handlers/session_manager.py:30-37 | every exchange keeps the history within the limit, and as alternating user/assistant pairs for an even limit |
| Sessions.FullHistoryDropsOldestPair | handlers/session_manager.py:35-37 | with 20 messages stored and a limit of 20, a reply drops the oldest pair |
| Sessions.FirstExchange | handlers/session_manager.py:30-39 | "hi" answered by "Hello" on an empty history stores exactly that pair |
| Sessions.SessionManager.constructor | handlers/session_manager.py:6-9 | a new session has an empty history and markdown on |
| Sessions.SessionManager.BuildRequest | handlers/session_manager.py:17-21 | for "gemini", the contents plus the input; otherwise the role/content records plus a user record; nothing else |
| Sessions.SessionManager.GetAIResponse | handlers/session_manager.py:11-41 | the response and the new history are the exchange step applied to the old history, the client lookup and the adapter's reply to the built request |
| Sessions.SessionManager.CommitExchange | handlers/session_manager.py:31-37 | the history becomes the trimmed old history plus the (user, assistant) pair |
| Sessions.DefaultWindowCoversHistory | models/chat_models.py:20-22 | with the default limit of 20, the default 10 recent exchanges are the whole history |
| Providers.DefaultModel | handlers/provider_manager.py:12-15 | the default model is one the client offers |
| Providers.ProviderChoice | handlers/provider_manager.py:23-48 | the provider prompt: with two or more providers a numbered answer switches to that provider and its first model; anything else keeps the selection |
| Providers.ModelChoice | handlers/provider_manager.py:52-74 | the model prompt: a key of the current provider's table switches to that model; anything else, or no client, keeps the selection |
| Providers.SingleProviderKeepsSelection | handlers/provider_manager.py:25-27 | with at most one provider the prompt returns False and changes nothing |
| Providers.NumberedProviderChoice | handlers/provider_manager.py:36-42 | answering `str(i+1)` selects the i-th provider with its default model and returns True |
| Providers.CancelIsNoKey | handlers/provider_manager.py:43-45 | 'cancel' in any case is never a provider number or a model key |
| Providers.CancelKeepsSelection | handlers/provider_manager.py:43-48 | 'cancel' returns False and keeps provider and model in both prompts |
| Providers.ModelChoiceSelects | handlers/provider_manager.py:50-68 | no client returns False and changes nothing; a key of the table selects that model's name and returns True |
| Providers.ProviderChoiceKeepsSelectionValid | handlers/provider_manager.py:36-48 | after the provider prompt the provider is registered and the model is one it offers |
| Providers.ModelChoiceKeepsSelectionValid | handlers/provider_manager.py:63-74 | the model prompt keeps that validity |
| Providers.ProviderManager.constructor | handlers/provider_manager.py:6-10 | starts with the first registered provider and its default model |
| Providers.ProviderManager.GetDefaultModel | handlers/provider_manager.py:12-15 | the current provider's default model is one that provider offers |
| Providers.ProviderManager.ChangeProvider | handlers/provider_manager.py:21-48 | the result and the new selection are the provider-prompt function of the old selection and the answer; validity is kept |
| Providers.ProviderManager.ChangeModel | handlers/provider_manager.py:50-74 | the result and the new selection are the model-prompt function of the old selection and the answer; validity is kept |
| Chat.ClassifyMenuInput | handlers/chat_handler.py:59-95 | each command is recognised exactly when the stripped, lower-cased input equals its word; blank input is recognised as no command |
| Chat.ChatHandler.constructor | handlers/chat_handler.py:16-25 | the provider manager starts on the first registered provider and that provider's first model, and the session starts empty with markdown on |
| Chat.ChatHandler.GetAIResponse | handlers/chat_handler.py:48-55 | the session's exchange step with the current provider and model |
| Chat.ChatHandler.ProcessUserInput | handlers/chat_handler.py:57-95 | returns False exactly for 'quit'; 'model' and 'provider' apply their prompt, and nothing else changes the selection; 'config' alone shows provider, model, markdown flag and the number of stored messages |
| Helpers.ValidateResponse | utils/helpers.py:10-18 | invalid exactly for None and for a string that is all whitespace; any other value is valid |
| Helpers.ValidatorStricterThanCommit | utils/helpers.py:15-17 | a reply the validator accepts is one the session's exchange step commits, but " " is rejected by the validator although the exchange step commits it |
| Helpers.FormatProviderName | utils/helpers.py:20-22 | the same name in capitals: same length, equal up to case, no lower-case letters |
| Helpers.ProviderNamesInCapitals | utils/helpers.py:20-22 | "gemini" and "openai" display as "GEMINI" and "OPENAI" |
| Terminal.GetAvailableModels | main.py:52-60 | five models, `str(i+1)` naming the i-th |
| Terminal.ChangeModel | main.py:62-79 | the result is the current model or one of the listed five |
| Terminal.ChangeModelResolves | main.py:62-79 | a listed key picks the model under it; any other answer, 'cancel' included, keeps the current model |
| Terminal.NumberedModelChoice | main.py:69-73 | answering `str(i+1)` picks the i-th model |
| Terminal.ClassifyLoopInput | main.py:87-104 | a line that is sent is the stripped line, never empty |
| Terminal.ClassifyLoopInputCases | main.py:87-104 | quit, clear, help and model are recognised exactly when the stripped input in lower case equals the word; empty input is skipped; anything else is sent stripped |
| Terminal.StreamText | main.py:119-121 | the reply the loop gathers: the non-empty `text` of each chunk, in order |
| Terminal.StreamTextIsConcatForGemini | main.py:119-121 | on Gemini chunks the loop gathers exactly what the shared formatter accumulates |
| Terminal.Sent | main.py:106-126 | the history after a send: unchanged when the SDK raised; otherwise the last 20 of old history + [input, gathered reply] |
| Terminal.Run | main.py:86-132 | the loop over the typed lines: 'quit' stops, 'clear' empties the history, 'model' takes the next line as its answer, a blank line is skipped, anything else is sent as the next SDK call |
| Terminal.AppendExchangeKeepsWellFormed | main.py:124-126 | appending an exchange opened by a non-empty input and cutting to 20 keeps the history in pairs of at most 20 entries |
| Terminal.SentKeepsWellFormed | main.py:106-126 | a send, answered or failed, keeps the history at most 20 entries, in pairs opened by a non-empty input |
| Terminal.RunKeepsWellFormed | main.py:81-132 | over any sequence of input lines, the history stays well formed and the model stays a listed one |
| Terminal.RunSend | main.py:106-126 | a message makes one SDK call and the loop goes on with the next line |
| Terminal.FailedSendCanBeRetried | main.py:106-132 | after a send whose call raised, typing the same line again makes a new call with the same contents, and its answer alone decides the history |
| Terminal.FullHistoryDropsOldestExchange | main.py:124-126 | with 20 entries stored, an answered message drops the oldest pair |
| Terminal.EmptyReplyPolicies | main.py:124-126 | the loop stores an empty reply, while the session manager's exchange step does not commit it |
| Terminal.SendMessage | main.py:106-126 | the new history is the n-th SDK call's outcome applied to the old one: unchanged when the SDK raises, otherwise the last 20 of old + [input, gathered text] |
| Terminal.LoopStep | main.py:86-132 | one pass of the loop body: either the loop ends in the state the loop function gives, or it goes on from a state with the same remaining run |
| Terminal.ChatLoop | main.py:81-132 | the final history and model are those of the loop function on the lines from an empty history, the initial model and call 0; the history is well formed with a listed model |

## Left out

- Rendering is not modelled: Rich `Live`, `Markdown`, `Text`, the 10 Hz refresh, console printing and `flush`. Only the returned text is modelled. So the model cannot see that the final `Markdown(full_response)` render in utils/formatters.py:25-26 sits outside the `try`, and that a markdown failure there would raise after the loop.
- The terminal and Textual UIs (ui/terminal_ui.py, app/chat_app.py, handlers/ui_launcher.py) are display and event handling and are not part of this model.
- handlers/command_handler.py only prints panels. The model returns what `config` would show instead.
- Chat.ChatHandler.ProcessUserInput: 'startchat' launches the chat UI session, whose every message goes through the session's exchange step (`Sessions.Exchange`, `Chat.ChatHandler.GetAIResponse`) and can grow the history. The model does not run that session: it returns True and keeps the history, which in the source may have grown by the time the menu comes back.
- The SDK calls, `validate_connection` and the temperature and token settings sent to the SDKs are out of scope: the `network` parameter stands for the SDK.
- `load_dotenv`, `os.getenv` and `input()` are I/O: key presence, client construction success and typed answers are parameters. `sys.exit` is I/O as well.
- `setup_environment`, `initialize_client`, `main`, `print_welcome` and `print_help` in main.py are process start-up and printing.
- The temperature (0.7) float setting is not modelled.
- `handle_error`, `get_user_input` and `exit_application` in utils/helpers.py are console I/O.
- PyText.Lower: `str.lower` is modelled for ASCII letters only.
- PyText.Upper: `str.upper` is modelled for ASCII letters only.
- Terminal.ChatLoop: the loop ends when the input lines run out. The source's `input()` would raise `EOFError`, which the generic handler catches, so the source would keep asking. `KeyboardInterrupt` is not modelled.
- Terminal.ChatLoop: when 'model' is the last line, the loop ends, while the source would wait for the answer.
- Terminal.SendMessage: a stream that fails part-way leaves the history unchanged, as in the source. The partial text already printed is not modelled.
- Sessions.SessionManager.constructor: requires `max_history_length >= 1`. The settings always give 20. A limit of 0 would never trim (`s[-0:]` is the whole list), and a negative limit would drop that many messages from the front on every trim. Sessions.TrimHistory states both cases.
- Providers.ProviderManager.constructor: requires a non-empty registry. The source would raise `IndexError`, and setup already raises before that point.
- Providers.ProviderManager.GetDefaultModel: requires the current provider to be registered. The source would fail on `None`.
- `ClientManager.__init__` is modelled as the constructor followed by `SetupClients`. Its `ValueError` is the `Fail` outcome.
- The property accessors of `ChatHandler` and `ChatHistory.length` are read as fields or functions.
- `ProviderManager.get_available_providers` is `ClientManager.GetAvailableProviders`.
