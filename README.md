# llmchat: a verified model of the chat turn

`llmchat.py` is a Streamlit chat front-end. It streams answers from a
chat-completion API (DeepSeek Direct or OpenRouter), limits the user to ten
requests per minute, and keeps the conversation in `st.session_state`. This
project models the logic under the UI calls and proves properties of it:

- **Rate limiter** (`RateLimit`, and `ChatApp.CheckRateLimit`). `check_rate_limit`
  first drops every timestamp that is not strictly newer than `now - 60`. It
  refuses the call when ten or more remain; otherwise it records `now`. The
  window is a `seq<int>` field that the method reassigns. `Replay` runs the
  limiter over a whole sequence of calls. `SlidingWindowBound` then proves
  that, with a clock that never goes back, no stretch shorter than sixty
  seconds ever holds more than ten admitted calls.
- **Request building** (`Request`). This covers the composed user turn (the
  file text, `"\n"`, then the prompt), the message list (system preamble, then
  the log), the header map (the provider's extra headers are unpacked last and
  win), the URL, and the body. `API_PROVIDERS` is the constant `Providers`.
- **Stream decoding** (`Stream`). `Accumulate` is the loop over the reply's
  lines, with `chunk_json` and `full_response` as loop variables. It is proved
  equal to the fold `Decode`. `DecodeIsTwoSteps` proves that fold equal to a
  two-step reference: first an envelope step per line (`Examined`), then a
  delta step per payload (`Collect`). The source's quirks are kept and proved
  as lemmas:
  - `chunk_json` persists, so an OpenRouter line without `data: ` examines
    the previous payload again.
  - `lstrip("data: ")` strips a character set, not a prefix.
  - A `data: [DONE]` sentinel is not JSON, so it raises.
- **JSON** (`Json`). JSON parsing is an uninterpreted partial function
  `string -> Option<Value>`. The Python operations the decoder applies to the
  parsed value are modelled with their exceptions: `in` (a substring test on
  a str), `[k]`, `[0]`, `.get` and truthiness.
- **HTTP error message** (`HttpError`). The message is `API Error (<provider>):
  <status>`, plus ` - <details>` when the body has a truthy `error.message`.
  The status's decimal text is proved to read back as the status.
- **The turn** (`ChatApp.ChatApp.Submit`). The fields `messages` and
  `apiCalls` stand in for `st.session_state`. The gates come first: the rate
  limit, then the API key. So a call refused for a missing key still uses up a
  window slot. Then the user turn is appended, the request is sent, and the
  reply is decoded. On success the assistant turn is appended and the history
  is saved. Any exception pops the last message. So every failure before the
  assistant append leaves the old log. A failed save pops the assistant turn
  instead and leaves the user turn dangling.

Some of this behaviour is easy to misread:
- A streamed line that is not JSON raises in `json.loads`. That ends the
  turn and pops the user message; the line is not skipped.
- Which of the two decoding branches runs is decided by comparing the
  provider's name with `"OpenRouter"`.
- The rollback is a plain `pop()` of whatever message is last.
- The code takes no lock, has no way to cancel a stream, and writes the
  history file in place.

## Model

| member | source | states |
|---|---|---|
| RateLimit.Pruned | llmchat.py:80 | the survivors are exactly the timestamps strictly newer than `now - 60`, there are no more than before, and they keep their order (a subsequence of the old window) |
| RateLimit.PrunedCounts | llmchat.py:80-81 | each recent timestamp survives exactly as many times as it was recorded, and no other survives, so the length the limit counts is fixed |
| RateLimit.Admits | llmchat.py:80-81 | a call is refused only when at least ten calls are recorded, and always admitted when every recorded call is older than the window |
| RateLimit.AfterCall | llmchat.py:78-85 | the new window is the pruned window plus `[now]` when fewer than ten survive, and the pruned window alone otherwise; `now` is recorded exactly on admission; at most ten entries if there were at most ten before; every entry inside the window; none later than `now` when none was before |
| RateLimit.PrunedConcat | llmchat.py:80 | pruning distributes over concatenation, so survivors keep their relative order |
| RateLimit.PrunedTwice | llmchat.py:80 | pruning at an earlier time and then at a later one equals pruning at the later one |
| RateLimit.AdmittedCallIsSpaced | llmchat.py:81-84 | a call that finds fewer than ten recent entries in a sorted window lies at least sixty seconds after the tenth-last entry |
| RateLimit.ReplayWindow | llmchat.py:78-85 | over successive calls with a non-decreasing clock, the window is exactly the admitted timestamps still recent at the last call, and the admitted timestamps are sorted |
| RateLimit.ReplaySpacing | llmchat.py:78-85 | any eleven consecutive admitted calls span at least sixty seconds |
| RateLimit.SlidingWindowBound | llmchat.py:78-85 | no stretch shorter than sixty seconds holds more than ten admitted calls |
| RateLimit.BurstAtOneInstant | llmchat.py:81-84 | of `n` calls at one instant, the first ten are admitted and every later one is refused |
| ChatApp.ChatApp.CheckRateLimit | llmchat.py:78-85 | returns whether fewer than ten recent calls remain; the window becomes the pruned window plus `[now]` on acceptance, and the pruned window alone (ten or more entries) on refusal; the log is untouched |
| Request.FullPrompt | llmchat.py:123 | with a non-empty file text the turn is that text, a newline, then the prompt (each part located by position); with an empty one it is the prompt alone |
| Request.RequestMessages | llmchat.py:139 | one message more than the log: the system preamble first, then the log unchanged |
| Request.Headers | llmchat.py:131-135 | the keys are `Authorization`, `Content-Type` and the extra ones; an extra header wins on a shared name; the fixed values hold where not overridden |
| Request.BuildRequest | llmchat.py:131-155 | the URL is the base URL plus `/chat/completions`; the header names are the two fixed ones plus the provider's; the bearer token and JSON content type are set; every extra header has the provider's value; the provider's model; the messages are the system message with the preamble and then the log; both sampling values passed through; `stream` is true |
| Request.ProviderTable | llmchat.py:21-35 | the table has exactly the two providers; neither overrides `Authorization` or `Content-Type`; DeepSeek sends no extra headers and OpenRouter sends `HTTP-Referer` and `X-Title` |
| Json.Parse | llmchat.py:165-167 | `json.loads` fails exactly when the parser yields nothing, always with a JSON decoding error, and otherwise gives the parsed value |
| Json.IsSubstringOccurs | llmchat.py:169 | `in` on two strings holds exactly when the needle occurs at some index |
| Json.Contains | llmchat.py:169-171 | `in` answers for a dict (key test), a str (substring test) and a list (element test), and raises TypeError on anything else |
| Json.Subscript | llmchat.py:170-172 | `v[k]` succeeds exactly for a dict holding `k`, giving its value; a missing key raises KeyError and a non-dict TypeError |
| Json.First | llmchat.py:170 | `v[0]` succeeds exactly on a non-empty list or str with the first element; an empty one raises IndexError, a dict KeyError, anything else TypeError |
| Json.Get | llmchat.py:170 | `.get` succeeds exactly on a dict, giving the value or the default; anything else raises AttributeError (also the two lookups of line 183) |
| Json.Truthy | llmchat.py:184 | a value is falsy exactly when it is `None`, `False`, `0`, `""`, `[]` or `{}` |
| Stream.TrimStart | llmchat.py:163 | the leading-whitespace half of `strip()`: a suffix of the input, everything dropped is whitespace, and the result does not start with whitespace |
| Stream.TrimEnd | llmchat.py:163 | the trailing-whitespace half of `strip()`: a prefix of the input, everything dropped is whitespace, and the result does not end with whitespace |
| Stream.Strip | llmchat.py:163 | `strip()` is the middle of the line between a whitespace prefix and a whitespace suffix, and neither of its ends is whitespace |
| Stream.StripKeepsTrimmed | llmchat.py:163 | `strip()` leaves a line alone when it starts and ends with non-whitespace |
| Stream.LStripChars | llmchat.py:167 | `lstrip(chars)` drops the longest leading run of characters in the set: the result is a suffix, every dropped character is in the set, and the result does not start with one |
| Stream.LStripSkipsRun | llmchat.py:167 | any leading run of characters of the set is removed as a whole |
| Stream.StripsDataMarker | llmchat.py:167 | `data: ` in front of a payload not starting with `d`, `a`, `t`, `:` or space is removed exactly |
| Stream.StripsCharacterSet | llmchat.py:167 | a bare `true` becomes `rue` |
| Stream.StripsDoubledMarker | llmchat.py:167 | a doubled `data: data: ` marker is removed entirely |
| Stream.OpenRouterPayload | llmchat.py:162-165 | a payload is taken exactly when the stripped line starts with `data: `, and it is the stripped line minus those six characters |
| Stream.Envelope | llmchat.py:162-167 | the only exception is a JSON decoding error; with OpenRouter a line without `data: ` keeps the previous payload and a data line parses the text after the marker; otherwise the line is parsed after `lstrip("data: ")` |
| Stream.Examine | llmchat.py:162-167 | the branches of the loop body compute the envelope step |
| Stream.ExtractDelta | llmchat.py:169-172 | a payload without `choices`, the initial `""`, or a first choice without `delta.content` adds nothing; `choices[0].delta.content` is added when the payload is a well-formed delta frame; any non-empty addition comes from such a frame; an empty `choices` list raises IndexError |
| Stream.Step | llmchat.py:160-172 | a blank line changes nothing; in a successful step the reply text only grows, `chunk_json` becomes the examined payload, and the text grows by that payload's delta |
| Stream.ProcessLine | llmchat.py:160-172 | one pass of the loop body computes the step |
| Stream.Decode | llmchat.py:158-172 | a body of blank lines leaves `chunk_json` at `""` and the reply empty |
| Stream.DecodeTextGrows | llmchat.py:158-173 | if the whole body decodes, every prefix of it decodes too, and the text shown so far is a prefix of the final reply |
| Stream.Accumulate | llmchat.py:147-172 | the loop's result equals `Decode` over the lines: the accumulated text on success, the first exception otherwise |
| Stream.DecodeErrorPersists | llmchat.py:159-172 | once a line raises, later lines change nothing: the turn has failed |
| Stream.DecodeIsTwoSteps | llmchat.py:158-172 | the fused loop succeeds exactly when the envelope step over all lines and the delta step over all payloads both succeed; then its text is the collected text and `chunk_json` is the last examined payload |
| Stream.OnePayloadPerLine | llmchat.py:159-168 | empty lines are skipped and every other line yields exactly one examined payload |
| Stream.CollectContents | llmchat.py:169-172 | for well-formed delta frames the reply is the in-order concatenation of their contents |
| Stream.JoinConcat | llmchat.py:159-172 | accumulating over a concatenation gives the first exception, or the two texts joined |
| Stream.CollectSkipsEmpty | llmchat.py:169-171 | a payload that adds nothing can be dropped from anywhere without changing the result |
| Stream.BlankLineIgnored | llmchat.py:160 | an empty line leaves the loop state unchanged |
| Stream.RepeatsPreviousDelta | llmchat.py:158-172 | with OpenRouter a non-empty line without `data: ` re-examines the previous payload, so its delta is appended a second time |
| Stream.DoneSentinelRaises | llmchat.py:162-167 | a `data: [DONE]` line raises with either provider when `[DONE]` does not parse |
| Stream.TwoFramesWithBlank | llmchat.py:158-172 | two `data: ` content frames with a blank line between them accumulate to the two texts in order, with either provider, and `chunk_json` ends as the second frame |
| Stream.DataLineEnvelope | llmchat.py:162-167 | for a `data: ` line around a payload with no surrounding whitespace whose first character is not one of `data: `, both branches examine exactly that payload |
| HttpError.DecimalString | llmchat.py:180 | `str(status)` is a non-empty string of digits without a leading zero |
| HttpError.DecimalRoundTrip | llmchat.py:180 | the decimal text reads back as the status |
| HttpError.LeadingDigitsOfNumber | llmchat.py:180 | the digit run in front of a non-digit is exactly the number's text |
| HttpError.ErrorDetail | llmchat.py:181-187 | details are present only when the body is a dict whose `error` is a dict with a truthy `message`, and they are that message; whenever that holds they are present |
| HttpError.ApiErrorMessage | llmchat.py:180-185 | the message starts with the heading and the status digits, and with details it is at least three characters longer |
| HttpError.ApiErrorMessageParts | llmchat.py:180-185 | the message starts with `API Error (<provider>): `, the following digits read back as the status, and the rest is ` - <details>` or nothing |
| HttpError.DetailsOnlyFromErrorMessage | llmchat.py:183-187 | the ` - ` suffix is absent exactly when there are no details (body not JSON, not the expected shape, or a falsy message) |
| ChatApp.StreamOutcome | llmchat.py:158-192 | a decoding exception gives `StreamFailed` with that exception; a decoded body that broke off is a transport failure; a complete body whose save fails is `SaveFailed`; otherwise the turn is `Answered` with the decoded text |
| ChatApp.ReplyOutcome | llmchat.py:149-192 | a sent request never ends at a gate; `ApiError`, with the formatted message, exactly for an HTTP error status; a transport failure exactly for a failed connection or a broken body that decoded; `StreamFailed` with the decoding exception exactly when a non-error reply fails to decode; `SaveFailed` and `Answered` exactly for a complete decoded reply whose save fails or succeeds, with the decoded text |
| ChatApp.IsHttpError | llmchat.py:156 | `raise_for_status` raises exactly for the 4xx and 5xx statuses |
| ChatApp.ChatApp.constructor | llmchat.py:41-48 | the session starts with an empty log and an empty window |
| ChatApp.ChatApp.PopMessage | llmchat.py:189 | `pop()` removes the last message and nothing else |
| ChatApp.ChatApp.AwaitReply | llmchat.py:149-192 | the outcome is `ReplyOutcome`; on an answer the assistant turn is appended; on a failed save the log is as before the assistant append; on every other failure the user turn is popped |
| ChatApp.ChatApp.Submit | llmchat.py:115-192 | nothing happens without a prompt; the rate-limit gate comes first and always updates the window; then the API-key gate; the request carries the old log plus the user turn; the log gains both turns on success, only the user turn when saving fails, and is unchanged otherwise; a log of complete turns stays one unless the save fails |

## Left out

- The Streamlit UI is not modelled: widgets, chat bubbles, the cursor placeholder, `st.error` texts. `st.stop` is an early return from `Submit`, and the outcome names the error kind instead of the displayed text.
- The network is not modelled: `requests.post`, `raise_for_status` and `iter_lines` become the input `Response`. It is a failed connection, or a reply with a status, a parsed error body, the body's lines as strings, and whether the body broke off after them.
- Stream.Accumulate: lines are taken as already decoded strings, so a UTF-8 decoding failure in `chunk.decode()` is not modelled.
- JSON parsing is the uninterpreted function `parse`, so which texts are JSON is not modelled; `render` stands for Python's `str()` of a non-string error message. JSON numbers are `real`.
- Chat history persistence is not modelled: `save_chat_history` is only the input `saveSucceeds`. `load_chat_history`, the history directory, and the file contents (including a file left truncated by a failed write) are left out.
- The "New Chat" button (new session id, empty log) is not modelled. It is UI plus persistence, and the session id comes from `uuid4`.
- `read_uploaded_file` and docx extraction are not modelled: `fileContent` is an input string.
- Timestamps are whole seconds (`int`) instead of `time.time()` floats.
- The temperature and repetition-penalty values are passed through unchanged as `real`.
- Submit: an empty prompt stands for `chat_input` returning nothing; Streamlit cannot submit an empty message.
