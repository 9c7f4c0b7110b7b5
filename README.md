# NVIDIA Llama 4 adapters for LangChain.js — a Dafny model

The package provides three LangChain.js adapters for NVIDIA's hosted Llama 4 models:

- **`ChatNvidiaLlama4`** is a chat model. It turns LangChain messages into a
  chat-completions request and turns the reply into text. The reply arrives either as one
  JSON body or as a stream of server-sent-event lines.
- **`NvidiaLlama4`** is a completion model. It sends each prompt as a single user message
  to the same endpoint, running every prompt of a batch concurrently.
- **`NvidiaEmbeddings`** is an embeddings model. It posts texts to the embeddings endpoint
  and retries a failed request with exponential backoff.

Two translations are shared by the adapters:

- `convertOptionsToNvidiaParams` maps camelCase options to snake_case wire parameters.
- `formatMessagesForNvidia` maps LangChain messages to provider messages, keyed on the
  message class.

The model is made of these modules:

- `Js` holds the JavaScript values the adapters handle. A plain object is a
  `map<string, Value>` with an explicit `Undefined` value, so `{...a, ...b}` is `a + b`. An
  explicit `undefined` in the call options therefore hides a default, as it does at run
  time. The module also has `||` / `??` defaulting, `trim` (the exact JavaScript white-space
  set), `startsWith`, and string concatenation.
- `Utils` is `src/utils.ts`. The option mapping is a fold over the nine (camel, wire) name
  pairs. `ConvertOptionsToNvidiaParams` keeps the nine `if` statements and is proved equal
  to that fold. The message formatter keeps the multimodal loop as a method, and there are
  the response extractors.
- `EventStream` is the line-buffered reader of a streamed reply. The chat and completion
  models share it, since both use the same line-handling logic; only the chunk objects
  they yield for a text differ, and those are not modelled. `LineParser` is the generator's
  state (the buffer, and whether `[DONE]` was read). Its `Feed` method drains complete lines
  in a `while` loop, as the source does. Every method is proved against `StreamScan`, a
  function of the whole text received.
- `ChatModels`, `Llm` and `Embeddings` are the three adapter classes. Their configuration
  is set once in the constructor. The network is a parameter:
  - `post` is the reply to a non-streaming request: the body, or the text of the error thrown.
  - `stream` is the chunks a streaming request delivered, plus the transport error that
    ended it, if any.
  - For embeddings, `post(payload, i)` is the outcome of the i-th attempt.
  - `JSON.parse` of a stream payload, together with the `choices[0].delta.content` lookup,
    is the parameter `parse`.

## Model

| member | source | states |
|---|---|---|
| Js.StringOr | src/chat_models.ts:87-89 | the logical-or default of a string field: a truthy string is kept, and absent, null, undefined or "" give the default |
| Js.BoolOr | src/chat_models.ts:90 | `fields.streaming ?? false`: only null or undefined give the default, so an explicit `false` is kept |
| Js.IntegerOr | src/embeddings.ts:68 | `fields.maxRetries ?? 3`: only null or undefined give the default, so an explicit `0` is kept |
| Utils.CopyOptionsDomain | src/utils.ts:37-53 | the copied record has a wire key exactly when some option copied under it is not `undefined` |
| Utils.CopyOptionsValue | src/utils.ts:40-51 | with distinct wire names, a defined option is found under its wire name with its value unchanged |
| Utils.NvidiaParamsSpec | src/utils.ts:34-54 | each of the nine options appears under its snake_case name exactly when it is not `undefined`, with its value; no other key appears |
| Utils.NvidiaParamsOfNothing | src/utils.ts:37-53 | options that define none of the nine fields give an empty record |
| Utils.ConvertOptionsToNvidiaParams | src/utils.ts:34-54 | the nine `if` statements build exactly the fold that `NvidiaParamsSpec` characterises |
| Utils.RequestParamsSpec | src/chat_models.ts:111-115 | `{...defaults, ...options, model}`: the configured model is always sent, whatever the options say; any other option comes from the call options when they have the key (an explicit `undefined` drops the default) and from the defaults otherwise; only the nine wire names appear |
| Utils.FormatPartsAppend | src/utils.ts:108-119 | formatting parts distributes over concatenation, so the loop works part by part |
| Utils.FormatMultimodalContent | src/utils.ts:102-124 | the push loop builds exactly `FormatParts` of the parts |
| Utils.FormatPartsIsKeptParts | src/utils.ts:108-119 | entry i of the content is the i-th text or image_url part, converted (an image carries `UrlOf` its `image_url`, so a plain-string `image_url` loses its url): order is kept and only the parts of any other type are dropped |
| Utils.UrlOf | src/utils.ts:115 | `part.image_url.url` is the url of an `{url}` object and is absent for a plain-string `image_url` |
| Utils.FormatUnformatParts | src/utils.ts:109-118 | every provider content array is produced, unchanged, from the parts it reads back as (round trip) |
| Utils.ChatRole | src/utils.ts:133-143 | the role is system exactly for "system" and assistant exactly for "assistant"; anything else is user |
| Utils.ChatMessageRoles | src/utils.ts:131-148 | a chat message whose role names a provider role keeps that role and its text; any other role becomes "user" |
| Utils.FormatMessagesForNvidia | src/utils.ts:81-84 | one provider message per LangChain message, in the same order, each formatted on its own |
| Utils.FormatMessagesAppend | src/utils.ts:84 | formatting a conversation distributes over concatenation |
| Utils.FormatMessageFor | src/utils.ts:88-130 | every provider message with text content (or, for the user, parts) is what its own message class formats to (round trip) |
| Utils.FormatMessageRole | src/utils.ts:88-155 | system exactly for system messages and chat messages with role "system"; assistant exactly for AI messages and chat messages with role "assistant"; user for everything else |
| Utils.FormatMessageContent | src/utils.ts:88-155 | system and chat messages pass their content on uncast; human messages with parts send the formatted parts; AI and other messages with parts send one "[object Object]" per part |
| Utils.ContentToString | src/utils.ts:129 | `content.toString()`: a string is itself, and a part array prints as `ObjectArrayString` of its length |
| Utils.ObjectArrayStringSpec | src/utils.ts:153 | an array of n part objects prints as n copies of "[object Object]" separated by commas |
| Utils.PlainContentKept | src/utils.ts:88-155 | string content is sent unchanged, whatever the message class |
| Utils.ResponseText | src/utils.ts:170 | the first choice's message content, or "" as the logical-or fallback: a non-empty result is the content the response carries; "" means it carries none or "" |
| Utils.FinishReason | src/utils.ts:177 | the first choice's finish reason (absent or not), and none when there is no first choice |
| Utils.ConvertResponseToLangChainMessage | src/utils.ts:162-181 | the AI message holds the response text, the first choice's finish reason and the usage |
| Utils.GenerationOf | src/chat_models.ts:148-158 | the generation's text is the content carried by the response ("" when absent); the first choice's finish reason and the usage are always copied over |
| EventStream.NewlineIndex | src/chat_models.ts:203 | `indexOf("\n")`: the position of the first newline |
| EventStream.Pending | src/chat_models.ts:205 | what stays in the buffer never holds a newline |
| EventStream.LinesAppend | src/chat_models.ts:197-205 | the lines of `a + b` are those of `a`, then those of a's unfinished rest followed by `b` |
| EventStream.ScanLinesAppend | src/chat_models.ts:202-244 | lines are handled left to right, and nothing after "[DONE]" is looked at |
| EventStream.StreamScanAppend | src/chat_models.ts:197-245 | text received later continues the scan from the unfinished line |
| EventStream.DoneIsFinal | src/chat_models.ts:211-213 | once "[DONE]" has been read, nothing that arrives later is emitted |
| EventStream.UnterminatedTailIgnored | src/chat_models.ts:202-205 | text after the last newline is never processed |
| EventStream.ScanTextsNonEmpty | src/chat_models.ts:217-219 | every text the parser yields is non-empty |
| EventStream.Emitted | src/chat_models.ts:215-242 | a data payload yields a text exactly when it parses and its delta content is present and non-empty, and then yields that content alone |
| EventStream.Classify | src/chat_models.ts:204-213 | a trimmed line not starting with "data: " is ignored; otherwise its trimmed payload is "[DONE]", which ends the stream, or is data to parse |
| EventStream.IgnoredLineEffect | src/chat_models.ts:207 | a complete line that is not a `data: ` line is as good as absent |
| EventStream.DoneLineEffect | src/chat_models.ts:208-213 | a `data: [DONE]` line ends the stream with what was yielded before it |
| EventStream.DataLineEffect | src/chat_models.ts:214-242 | a data line before "[DONE]" yields its delta, if any, in place |
| EventStream.DrainLines | src/chat_models.ts:202-244 | the `while (buffer.includes("\n"))` loop yields exactly what the scan of the buffer's complete lines yields, and leaves its unfinished rest |
| EventStream.LineParser.constructor | src/chat_models.ts:195 | the buffer starts empty and nothing has been read |
| EventStream.LineParser.Feed | src/chat_models.ts:197-245 | one chunk: the parser stays in step with the scan of all text received, the buffer holds no newline, and after "[DONE]" nothing more is yielded |
| EventStream.StreamResponseChunks | src/chat_models.ts:195-245 | the yielded texts, and whether "[DONE]" stopped the generator, are the scan of the concatenated chunks, however the text is split into chunks |
| EventStream.ReadStream | src/chat_models.ts:246-250 | a transport error before "[DONE]" is rethrown with the stream prefix; otherwise the yielded texts are returned |
| EventStream.ConcatStreamed | src/llm.ts:246-252 | the `for await` loop appends every streamed text in order |
| ChatModels.ChatNvidiaLlama4.constructor | src/chat_models.ts:82-96 | defaults for URL, model and streaming; the default options are the fields minus apiKey, baseUrl, model and streaming |
| ChatModels.ChatNvidiaLlama4.GetParams | src/chat_models.ts:105-126 | the merged parameters (the configured model always), the formatted messages one per input in order, and the stream flag |
| ChatModels.ChatNvidiaLlama4.Generate | src/chat_models.ts:131-168 | success exactly when the request succeeds, giving that response's generation; otherwise the error text with the API prefix |
| ChatModels.ChatNvidiaLlama4.Call | src/chat_models.ts:256-276 | streaming: the concatenated streamed texts or the stream error; otherwise the response text, and an error when it is empty or the request failed |
| Llm.AllSpec | src/llm.ts:122-151 | `Promise.all`: success exactly when every prompt succeeds, with each value at its position; otherwise the error of a failed prompt |
| Llm.NvidiaLlama4.constructor | src/llm.ts:61-74 | defaults for URL, model and streaming; the default options are the fields minus the four configuration keys |
| Llm.NvidiaLlama4.GetParams | src/llm.ts:83-108 | the merged parameters, one user message holding the prompt, and the stream flag; the extra `images` assignment changes nothing |
| Llm.NvidiaLlama4.ImagesAlreadySent | src/llm.ts:103-105 | non-empty call images are already among the merged parameters with the same value |
| Llm.NvidiaLlama4.GetParamsImages | src/llm.ts:89-105 | call images that are not `undefined` are sent as given, an empty array included; without the key, the default images are sent |
| Llm.NvidiaLlama4.GenerateOne | src/llm.ts:123-150 | one prompt: its single generation from the response, or the error with the API prefix |
| Llm.NvidiaLlama4.Outcomes | src/llm.ts:122-124 | one outcome per prompt, in prompt order |
| Llm.NvidiaLlama4.GenerateSpec | src/llm.ts:113-157 | the batch succeeds exactly when every prompt does, with each prompt's generation at its position; a failed batch reports a failed prompt's error |
| Llm.NvidiaLlama4.GenerateSingle | src/llm.ts:254 | a batch of one prompt is that prompt's generation or its error |
| Llm.NvidiaLlama4.Call | src/llm.ts:241-260 | streaming: the concatenated streamed texts or the stream error; otherwise the first generation's text, and an error when it is empty or the request failed |
| Embeddings.Texts | src/embeddings.ts:92 | a single text is sent as a one-element array, and an array as itself |
| Embeddings.Backoffs | src/embeddings.ts:128 | the wait after attempt i is 2^i seconds |
| Embeddings.RetryFirstSuccess | src/embeddings.ts:114-133 | the first attempt that succeeds gives the result, after one doubling wait per failed attempt before it |
| Js.NatToDecimalValue | src/embeddings.ts:137-139 | the count in the exhaustion message is printed as decimal digits that read back as the number, with no leading zero |
| Js.IntToDecimalValue | src/embeddings.ts:137-139 | a negative count prints as "-" followed by the digits of its magnitude |
| Embeddings.RetryExhausted | src/embeddings.ts:114-139 | when all attempts fail, the error names maxRetries and the last error, after a wait for every attempt, the last one included |
| Embeddings.RetryFromIgnoresLaterAttempts | src/embeddings.ts:114 | no attempt at or beyond maxRetries is made |
| Embeddings.NvidiaEmbeddings.constructor | src/embeddings.ts:58-84 | defaults for URL, model, input type, encoding format, truncation and retries; the extra options are the fields minus the seven configuration keys |
| Embeddings.NvidiaEmbeddings.EmbeddingPayloadSpec | src/embeddings.ts:95-102 | model and truncation come from the configuration; texts, input type and encoding format do too unless an extra option of the same name overrides them; every extra option is sent unchanged |
| Embeddings.NvidiaEmbeddings.EmbeddingWithRetry | src/embeddings.ts:89-140 | the loop returns the result and waits that `Retry` defines |
| Embeddings.NvidiaEmbeddings.EmbedQuery | src/embeddings.ts:145-148 | the first vector of the retried request (`undefined` when there is none), or its error |
| Embeddings.NvidiaEmbeddings.EmbedDocuments | src/embeddings.ts:153-155 | the vectors of one retried request for all documents, or its error |

## Left out

- HTTP (axios, URLs and headers): each request becomes the `post` or `stream` parameter, and
  the bearer header built from `apiKey` is not modelled.
- Timing of asynchronous code. `Promise.all` rejects with whichever failure settles first;
  the model takes the first failure in prompt order.
- Callback managers (`handleLLMNewToken`), including that an error thrown by one is
  swallowed together with the JSON error of its line.
- Byte decoding: every chunk is taken as already decoded text, so a UTF-8 sequence split
  across chunks is not modelled.
- `JSON.parse` and the property lookups on its result are the `parse` parameter.
- The `generationInfo` of streamed chunks (their finish reason) and the `AIMessageChunk`
  wrapper, which `_call` does not read.
- Numbers are reals: floating point, NaN in truthiness tests, and the exponent form of
  numbers of 1e21 and above in the error message.
- Embeddings.NvidiaEmbeddings.constructor: requires `maxRetries` to be a whole number. A
  fractional count changes the number of attempts and how the message prints it.
- Embeddings.NvidiaEmbeddings.EmbeddingWithRetry: the waits are the base `2^i * 1000` ms;
  the random jitter of up to 100 ms and `setTimeout` itself are not modelled.
- Key order of objects and `JSON.stringify` dropping `undefined` values: a payload is a map.
- Llm.NvidiaLlama4.GetParams: `images.length` is modelled for arrays and strings only;
  other values with a `length` property are not modelled.
- The LangChain base classes (`BaseChatModel`, `BaseLLM`, `Embeddings`), the zod schema, and
  `_llmType` / `_modelType` identifiers.
- A stream error after some texts were yielded fails the whole `_call`, as in the source;
  the partial text is not returned.
