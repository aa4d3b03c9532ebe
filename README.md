# Groq model adapter, modelled in Dafny

This project models the deterministic core of agno's Groq provider
adapter, the `Groq` model class in `libs/agno/agno/models/groq/groq.py`. It
covers:

- the reassembly of streamed tool-call fragments (`parse_tool_calls`);
- the client and request dictionaries (`_get_client_params`,
  `request_kwargs`, `to_dict`);
- client memoisation (`get_client`, `get_async_client`);
- message formatting (`format_message`);
- response normalisation (`parse_provider_response`,
  `parse_provider_response_delta`);
- audio resolution and the part of `transcribe_audio` before the network
  call;
- the translation of SDK errors into `ModelProviderError`.

Modules, one per file:

| module | file | what it holds |
|---|---|---|
| `Values` | values.dfy | `Option`, `Result`, bytes, the dynamically typed `Value`, Python truthiness, the None-filtering comprehension |
| `ToolCalls` | tool_calls.dfy | `parse_tool_calls`: the object graph as written, the intended variant, and the loop over `ToolCallDict` objects |
| `Requests` | requests.dfy | `request_kwargs` and `to_dict` |
| `Client` | client.dfy | the `Groq` class with its key, client arguments and memoised clients |
| `AudioInput` | audio.dfy | `_format_audio_for_message` and the request `transcribe_audio` prepares |
| `Messages` | messages.dfy | the `Message` class and `format_message` |
| `Responses` | responses.dfy | `parse_provider_response` and `parse_provider_response_delta` |
| `Errors` | errors.dfy | the `except` clauses of `invoke` and its siblings |

Conventions:

- Python's `None` is `Null` inside dictionaries and `None` of `Option`
  elsewhere.
- `dict.update` is the right-biased map union `+`.
- Truthiness tests (`if x:`) are `Truthy` and `TruthyText`.
- The environment variable `GROQ_API_KEY`, the file system (a map from
  paths of regular files to their bytes), `images_to_message`, pydantic's
  `model_dump` and the transcription call are inputs or function
  parameters.

Code that changes state in place is imperative Dafny:

- `parse_tool_calls` is a loop over `ToolCallDict` objects. In Python,
  `[{}] * n` puts n references to ONE dictionary into the list. The pure
  `Heap(slots, dicts)` model records which dictionary each position refers
  to. `ParseToolCalls` is proved to build exactly that graph.
- `format_message` writes `message.content`.
- `_get_client_params` writes `api_key`.
- `get_client` stores the client it builds.

In these places the model follows what the code does:

- `total_tokens` is copied from the provider's usage and never computed as
  a sum.
- A missing audio file and audio that cannot be processed raise the same
  `ValueError("Failed to process audio data")`.
- Tool-call fragments whose indices skip ahead (for example 1 then 0) do
  not give separately populated entries. See Findings.
- When the message has no images, the JSON directive is not part of the
  content sent for the message that receives it. See Findings.

## Model

| member | source | states |
|---|---|---|
| Values.DropNone | libs/agno/agno/models/groq/groq.py:87 | a key survives exactly when its value is not None, with its value unchanged |
| ToolCalls.Absorb | libs/agno/agno/models/groq/groq.py:393-408 | the first fragment on `{}` sets id and type as given (even None) and name/arguments to its text or ""; a later fragment appends non-empty text in order, replaces id/type only with a truthy value, and never leaves the entry empty |
| ToolCalls.Step | libs/agno/agno/models/groq/groq.py:390-392 | the list only grows, to exactly index + 1 when the index is past the end; that growth allocates one dictionary, referred to by every new position |
| ToolCalls.Run | libs/agno/agno/models/groq/groq.py:382-409 | the list as written after all fragments: every position refers to an allocated dictionary, and there are never more dictionaries than positions; RunLength, GaplessRunIsUnaliased and GapAliases characterise it |
| ToolCalls.RunLength | libs/agno/agno/models/groq/groq.py:382-409 | no fragments give an empty list; otherwise every index is inside the list and its length is one more than some fragment's index, that is 1 + the largest index |
| ToolCalls.RunFillsEveryEntry | libs/agno/agno/models/groq/groq.py:390-399 | every dictionary the loop allocates is filled by the fragment that caused it, so no entry of the result stays `{}` |
| ToolCalls.AssembledUntouched | libs/agno/agno/models/groq/groq.py:392 | an index no fragment carries assembles to `{}` |
| ToolCalls.GaplessRunIsUnaliased | libs/agno/agno/models/groq/groq.py:390-408 | when no index jumps past the list, position i has a dictionary of its own, holding exactly the fragments with index i in arrival order |
| ToolCalls.RunExtends | libs/agno/agno/models/groq/groq.py:390-392 | a position, once created, keeps referring to the same dictionary |
| ToolCalls.GapAliases | libs/agno/agno/models/groq/groq.py:390-392 | when an index jumps past the list, all positions created by that `extend` refer to one dictionary and are equal in the final result |
| ToolCalls.SplitCallIsJoined | libs/agno/agno/models/groq/groq.py:400-404 | two fragments at index 0 ("get_" then "weather") give one call named "get_weather" with the arguments joined |
| ToolCalls.OutOfOrderIndicesShareOneEntry | libs/agno/agno/models/groq/groq.py:390-408 | indices 1 then 0 give two positions holding the same merged call "lookupsearch", while each index alone assembles to "lookup" and "search" |
| ToolCalls.StepFresh | libs/agno/agno/models/groq/groq.py:390-408 | with a dictionary per placeholder, a step changes only the fragment's own position, growing the list with `{}` entries to index + 1 |
| ToolCalls.RunFresh | libs/agno/agno/models/groq/groq.py:382-409 | the corrected loop's list: empty for no fragments, and every fragment's index inside it; FreshRunAssembles gives its entries |
| ToolCalls.FreshRunAssembles | libs/agno/agno/models/groq/groq.py:382-409 | with a dictionary per placeholder, the list has the same length as written and entry i is exactly the fold of the fragments with index i, for every order of indices |
| ToolCalls.GaplessAgrees | libs/agno/agno/models/groq/groq.py:382-409 | without gaps, the list as written and the intended list are equal |
| ToolCalls.ToolCallDict.constructor | libs/agno/agno/models/groq/groq.py:391 | a new dictionary is `{}` |
| ToolCalls.ToolCallDict.Receive | libs/agno/agno/models/groq/groq.py:393-408 | updating the dictionary in place gives `Absorb` of its old contents and the fragment |
| ToolCalls.ParseToolCalls | libs/agno/agno/models/groq/groq.py:372-409 | the loop returns a list of new dictionaries as long as the model's, each holding the model's entry, and two positions are the same object exactly when the model says they alias |
| ToolCalls.ParseToolCallsFresh | libs/agno/agno/models/groq/groq.py:372-409 | the corrected loop returns pairwise distinct new dictionaries, entry i holding the intended value |
| Requests.Parameters | libs/agno/agno/models/groq/groq.py:139-154 | the base parameter dictionary has exactly the fourteen attribute names |
| Requests.Overrides | libs/agno/agno/models/groq/groq.py:163-164 | the entries request_params applies are its own whenever it is set; an empty one and None both apply nothing |
| Requests.SendableWithTools | libs/agno/agno/models/groq/groq.py:155-165 | None values are dropped, tools added when present, tool_choice only with tools, overrides win, nothing else is added |
| Requests.RequestKwargs | libs/agno/agno/models/groq/groq.py:131-165 | every request_params entry overrides; an attribute is sent exactly when not None; tools are sent exactly when the model has tools; tool_choice only alongside tools; no other key; a None is sent only if request_params holds it |
| Requests.CleanConfig | libs/agno/agno/models/groq/groq.py:174-200 | the attributes replace inherited entries, tools come with a tool choice defaulting to "auto", and no None survives |
| Requests.ToDict | libs/agno/agno/models/groq/groq.py:167-200 | no None value; each attribute present exactly when not None; with tools, tool_choice is the chosen one or "auto"; the base class's other non-None entries are kept |
| Requests.ToolChoiceOnlyDefaultedInConfig | libs/agno/agno/models/groq/groq.py:193-197 | with tools and no choice, the request carries no tool_choice while the configuration reports "auto" |
| Client.ResolveKey | libs/agno/agno/models/groq/groq.py:72-73 | a non-empty configured key is kept; otherwise the environment's value is taken, even when it is unusable |
| Client.ResolvedKeyIsStable | libs/agno/agno/models/groq/groq.py:72-73 | once a usable key is settled, later lookups keep it whatever the environment holds |
| Client.Groq.constructor | libs/agno/agno/models/groq/groq.py:56-68 | a new model holds its attributes and no clients |
| Client.Groq.ExtraParams | libs/agno/agno/models/groq/groq.py:89-90 | the entries client_params applies are its own whenever it is set; an empty one and None both apply nothing |
| Client.Groq.BaseParams | libs/agno/agno/models/groq/groq.py:78-85 | the base client arguments have exactly the six attribute names |
| Client.Groq.ClientParams | libs/agno/agno/models/groq/groq.py:77-91 | client_params entries override; an attribute is passed exactly when not None; api_key is passed exactly when a key is set; nothing else is passed |
| Client.Groq.GetClientParams | libs/agno/agno/models/groq/groq.py:70-91 | writes the resolved key back to the model and returns the client arguments for that key |
| Client.Groq.SyncClientParams | libs/agno/agno/models/groq/groq.py:102-105 | a configured HTTP client is passed as http_client; everything else is the client arguments |
| Client.Groq.AsyncClientParams | libs/agno/agno/models/groq/groq.py:119-127 | http_client is the configured one if truthy, otherwise a new client limited to 1000 connections and 100 keep-alive connections |
| Client.Groq.GetClient | libs/agno/agno/models/groq/groq.py:93-108 | returns the stored client untouched if there is one; otherwise builds a new one from the synchronous arguments and stores it |
| Client.Groq.GetAsyncClient | libs/agno/agno/models/groq/groq.py:110-128 | returns the stored async client if there is one; otherwise builds a new one from the async arguments and does not store it |
| Client.ClientMemoisation | libs/agno/agno/models/groq/groq.py:93-128 | two get_client calls return the same object, while two get_async_client calls return different objects |
| AudioInput.AudioBytes | libs/agno/agno/models/groq/groq.py:495-525 | non-empty embedded bytes win, then the URL's content, then the file's bytes; None exactly when none of these is there or the path is not a file |
| AudioInput.ChosenAudio | libs/agno/agno/models/groq/groq.py:553-571 | an Audio value is read from a single Audio or from the first of a non-empty list, never from raw bytes or an empty list |
| AudioInput.FileFormat | libs/agno/agno/models/groq/groq.py:560-583 | a given format wins, then the chosen audio's format, and "mp3" otherwise; never empty |
| AudioInput.TranscriptionParams | libs/agno/agno/models/groq/groq.py:573-581 | language, prompt and response_format are passed exactly when non-empty, temperature exactly when not None, and nothing else |
| AudioInput.PrepareTranscription | libs/agno/agno/models/groq/groq.py:552-584 | fails with "Failed to process audio data" exactly when an Audio value yields no bytes; otherwise uploads those bytes (or the raw argument) as "audio.<format>" with the given model and parameters |
| AudioInput.MissingFileFails | libs/agno/agno/models/groq/groq.py:514-522 | an Audio value with only a path that is not a file makes transcription fail before any request |
| Messages.Message.constructor | libs/agno/agno/models/groq/groq.py:212-218 | a message holds the fields format_message reads |
| Messages.WantsJson | libs/agno/agno/models/groq/groq.py:221-226 | the directive applies only to a system message with text content and a response_format that has a "type" key; ContentAfterFormat states its effect |
| Messages.ContentAfterFormat | libs/agno/agno/models/groq/groq.py:221-228 | a JSON-mode system message with text content gains the directive once per call; any other content is unchanged |
| Messages.Transcription | libs/agno/agno/models/groq/groq.py:237-245 | a transcription is present exactly when the message has audio and both preparing and running the transcription succeed, and it is "Audio Transcription: " followed by the result |
| Messages.Assemble | libs/agno/agno/models/groq/groq.py:212-244 | no None value and only the five message keys; a transcription replaces the content; images with text content give a list that opens with the text part; otherwise the recorded content is kept when not None |
| Messages.FormattedMessage | libs/agno/agno/models/groq/groq.py:212-251 | the dictionary returned: only the five keys and no None; without images or a transcription it carries the content the message had before the directive; with images and text its text part carries the directive |
| Messages.FormatMessage | libs/agno/agno/models/groq/groq.py:202-251 | the message's content becomes its formatted content, and the returned dictionary records the content the message had before the call |
| Messages.FormatTwice | libs/agno/agno/models/groq/groq.py:221-228 | two calls leave the directive twice in the message; the first dictionary carries the original content and the second carries it with one directive |
| Messages.DirectiveMissingFromRequest | libs/agno/agno/models/groq/groq.py:212-228 | for "List three colours." the request sent as written does not end with the directive, while the intended one does |
| Messages.FormattedMessageIntended | libs/agno/agno/models/groq/groq.py:221-228 | when the JSON directive applies and there are no images or transcription, the sent content ends with the directive |
| Responses.DumpAll | libs/agno/agno/models/groq/groq.py:436-439 | converts every tool call or none: a result exactly when each call converts, element by element |
| Responses.Normalise | libs/agno/agno/models/groq/groq.py:442-453 | prompt, completion and total tokens are copied to input, output and total unchanged, and the total is never summed; the four timings go under additional_metrics |
| Responses.ParseProviderResponse | libs/agno/agno/models/groq/groq.py:411-454 | IndexError exactly when there are no choices; role and content are copied from the first choice; tool_calls is set only for a non-empty list that converts completely; usage is present exactly when the provider reports it |
| Responses.OneBadToolCallDropsAll | libs/agno/agno/models/groq/groq.py:435-439 | a single tool call that fails to convert leaves tool_calls unset |
| Responses.ProviderTotalIsKept | libs/agno/agno/models/groq/groq.py:446 | 10 prompt and 5 completion tokens with a provider total of 20 report 20 |
| Responses.ParseProviderResponseDelta | libs/agno/agno/models/groq/groq.py:456-493 | the role is never set; content and the raw fragments come from the first choice when there is one; usage comes from x_groq exactly when it carries some |
| Errors.Translate | libs/agno/agno/models/groq/groq.py:269-279 | validation and status errors keep the response text and status code; an APIError keeps its message; anything else keeps its text; the model's name and id are always attached |
| Errors.RateLimitIsKept | libs/agno/agno/models/groq/groq.py:269-273 | a 429 "rate limited" response becomes an error with that text and status 429 |

## Left out

- `invoke`, `ainvoke`, `invoke_stream` and `ainvoke_stream` are network
  calls through the SDK. Only the error translation inside them is
  modelled (`Errors.Translate`).
- `client.audio.transcriptions.create` is a network call.
  `PrepareTranscription` models the request up to that call.
- Building httpx clients is left out. A new async HTTP client is the value
  `AsyncHttpClient(1000, 100)`, and SDK clients are objects known by their
  arguments.
- Logging is left out, including the warning logged for video input.
- The transcription inside `format_message` also calls `get_client`, which
  may settle the key and store a client. The transcription is a parameter
  here, so that state change is not modelled.
- `atranscribe_audio` is not modelled. It repeats `transcribe_audio` with
  an async client and with `response_format` defaulting to "json" instead
  of "text".
- `images_to_message`, pydantic's `model_dump`, the base `Model.to_dict`,
  `ModelResponse` and `ModelProviderError` are not part of this model. They
  are parameters, inputs or records holding only the fields this adapter
  sets.
- Errors.Translate: a missing status code is `None`, because the default
  of `ModelProviderError` is not part of this model.
- Floats and other pass-through values (temperature, penalties, timings,
  headers) are opaque `Value`s.
- Fetching an audio URL is left out. Its content is an input field of the
  `Audio` value.
- Fragment indices are natural numbers, because the provider numbers tool
  calls from 0. Python's negative indexing is not modelled.
- Audio content that is not bytes is the single value `NotBytes`. Its
  actual type is not modelled.

## Findings

| source | as written | input that shows it | evidently intended | confidence | as-written member | corrected member |
|---|---|---|---|---|---|---|
| libs/agno/agno/models/groq/groq.py:391 | `[{}] * n` fills the new positions with references to one dictionary, so fragments of different calls merge | fragments with index 1 ("lookup") then index 0 ("search"): both entries become "lookupsearch" with arguments "{}{}" | one new dictionary per position, so each entry holds only its own fragments | not executed | ToolCalls.OutOfOrderIndicesShareOneEntry | ToolCalls.FreshRunAssembles |
| libs/agno/agno/models/groq/groq.py:212-228 | the dictionary captures `message.content` before the JSON directive is appended, so the request lacks the directive, and each call appends it to the message again | system message "List three colours." with response_format type "json_object", no images or audio: the request content is "List three colours." | the sent content ends with the directive | not executed | Messages.DirectiveMissingFromRequest | Messages.FormattedMessageIntended |
