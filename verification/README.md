# Voice-agent call handler, modelled in Dafny

This project models the webhook that drives a voice-agent phone call
(`lib/routes/voice-agent.js`). When a call arrives (`session:new`) the handler
binds its hooks, then either hangs up at once because the Deepgram credential is
missing, or starts the agent with the `llm` verb and a fixed configuration.
Afterwards it answers three kinds of agent notifications:

- `/final`: a completed turn. A failure (`server failure` / `server error`) is
  met with a spoken apology and a hangup. A rate-limit failure quotes the retry
  delay found by `/try again in (\d+)/`. Every completion is acknowledged with
  `reply`.
- `/toolCall`: a `get_weather` call. The handler geocodes the location, looks up
  the weather at the first result, and sends exactly one tool output under the
  call's `tool_call_id`. The output is either a `FunctionCallResponse` or an
  error.
- `/event`, `close`, `error`: these only log.

Every handler is a pure function that returns the directives it issues, in
order (`Directives.Directive`: `llm`, `hangup`, `send`, `say`, `reply`,
`sendToolOutput`).

Modules:

- `Wrappers` (wrappers.dfy): `Option` stands for JavaScript's `undefined`.
- `AgentConfig` (agent_config.dfy): the `llm` verb's argument and its tool schema.
- `Directives` (directives.dfy): the outbound verbs and the tool-output payloads.
- `RetryDelay` (retry_delay.dfy): the regular expression `/try again in (\d+)/`
  as a leftmost-match scanner, with a predicate `IsCapture` that specifies its
  result completely (`CaptureUnique`).
- `FinalHandler` (final_handler.dfy): the `/final` handler and its speech texts.
- `ToolCall` (tool_call.dfy): the `/toolCall` handler. The two HTTP lookups are
  inputs (`GeocodeOutcome`, `WeatherOutcome`). The result records which lookups
  were issued.
- `Session` (session.dfy): `session:new`, typed dispatch of notifications, and
  properties of whole sequences of notifications.

Behaviour easy to misread:

- A missing credential leads to `hangup` followed by `send`.
- The hooks are bound before the credential is checked, so they are bound in
  both branches.
- The credential test is JavaScript truthiness. An empty string counts as
  missing (`Session.HasCredential`).
- Five handlers are bound (`/event`, `/toolCall`, `/final`, `close`, `error`).
- The retry delay is found only when "try again in " (with its space) is
  directly followed by a digit. The group is the greedy ASCII digit run, kept
  verbatim (leading zeros included).
- An absent error message is searched as the text "undefined", as
  `RegExp.prototype.exec` converts its argument. It therefore never matches.
- The handlers keep no call state, so none is modelled.

## Model

| member | source | states |
|---|---|---|
| AgentConfig.Build | lib/routes/voice-agent.js:28-80 | the `llm` configuration carries the session's credential, names `/final`, `/event` and `/toolCall` as its action, event and tool hooks, and declares exactly one function, `get_weather` |
| AgentConfig.WeatherSchemaWellFormed | lib/routes/voice-agent.js:54-72 | the tool schema has distinct property names, every required name (`location`, `scale`) is a declared property, and `scale` is restricted to exactly `["fahrenheit", "celsius"]` |
| AgentConfig.BuildDependsOnlyOnKey | lib/routes/voice-agent.js:28-80 | two sessions' configurations differ only in the credential |
| RetryDelay.DigitRun | lib/routes/voice-agent.js:92 | the `\d+` group is greedy: it measures a run of digits that is not followed by another digit |
| RetryDelay.SearchFrom | lib/routes/voice-agent.js:92 | the scan returns a position where the pattern matches, and no earlier position at or after the start matches |
| RetryDelay.Exec | lib/routes/voice-agent.js:92 | `exec` fails exactly when the pattern matches nowhere; otherwise it reports the leftmost match and its maximal digit group (`IsCapture`) |
| RetryDelay.CaptureUnique | lib/routes/voice-agent.js:92 | at most one position and group satisfy `IsCapture`, so `IsCapture` determines the result of `exec` completely |
| RetryDelay.NoTrNoMatch | lib/routes/voice-agent.js:92 | a text with no "tr" in it yields no delay |
| RetryDelay.ExecFindsDelayAfter | lib/routes/voice-agent.js:92 | after a prefix that contains no "tr" and does not end in "t", the text "try again in " followed by a maximal digit run yields exactly those digits, at the position where the marker starts |
| FinalHandler.RateLimitText | lib/routes/voice-agent.js:91-97 | the rate-limit apology always opens with "Sorry, you have exceeded your open AI rate limits. ", and the delay it quotes is exactly the delay the error message announces, or none when the message announces none |
| FinalHandler.OnFinal | lib/routes/voice-agent.js:89-105 | `reply` is always last and issued exactly once; a `say` then a `hangup` precede it exactly when the completion reason is a failure; otherwise `reply` is the only directive; no tool output or `llm` is ever issued |
| FinalHandler.RateLimitSpeech | lib/routes/voice-agent.js:90-97 | for a rate-limit failure whose message has its leftmost match "try again in " + d, with d the maximal digit run there, the directives are exactly `say("Sorry, you have exceeded your open AI rate limits. Please try again in " + d + " seconds.")`, `hangup`, `reply`, whatever text comes before the match |
| FinalHandler.RateLimitQuotesDelay | lib/routes/voice-agent.js:90-97 | the same speech, stated for a message built as a prefix without "tr" that does not end in "t", then "try again in ", the digits, and a rest that does not start with a digit |
| FinalHandler.RateLimitExample | lib/routes/voice-agent.js:90-97 | the message "try again in 42 seconds" makes the handler say the delay 42 |
| FinalHandler.RateLimitWithoutDelay | lib/routes/voice-agent.js:91-97 | a rate-limit failure without a delay in its message is met with the bare apology, trailing space included |
| FinalHandler.OtherFailureSpeech | lib/routes/voice-agent.js:99-103 | any other error code, or none, is met with "Sorry, there was an error processing your request." and a hangup |
| ToolCall.OnToolCall | lib/routes/voice-agent.js:113-151 | exactly one `sendToolOutput` under the invocation's `tool_call_id`. A success echoes that id as `function_call_id` and is sent exactly when geocoding gave a non-empty array and the weather lookup succeeded. `location_not_found` is sent exactly when geocoding answered without a non-empty array. The geocoding lookup comes first, and the weather lookup is made exactly when geocoding located the place |
| ToolCall.WeatherSkippedUnlessLocated | lib/routes/voice-agent.js:123-127 | without a usable geocoding result, only the geocoding lookup is made, the weather outcome cannot change what is sent, and the output is an error |
| ToolCall.FirstPlaceUsed | lib/routes/voice-agent.js:128-136 | the weather is asked for at the first geocoding result's coordinates, in the requested scale |
| ToolCall.OutputReflectsWeather | lib/routes/voice-agent.js:136-150 | a successful weather lookup is sent back as its payload, unchanged, and a failed one as an error with its reason |
| ToolCall.GeocodeFailureReported | lib/routes/voice-agent.js:120-150 | a geocoding request that throws is reported with its own reason, not as `location_not_found` |
| Session.OnSessionNew | lib/routes/voice-agent.js:13-81 | the five handlers are bound in both branches. Without a credential the directives are exactly `hangup`, `send`, and `llm` never appears. With one they are `llm(config)`, `hangup`, `send`, where the configuration carries that credential and names only bound hooks |
| Session.ConfigHooksRegistered | lib/routes/voice-agent.js:14-37 | the configuration's action, event and tool hooks are among the bound paths, whatever the credential |
| Session.HookOf | lib/routes/voice-agent.js:14-19 | every kind of notification arrives on a bound path |
| Session.ToolOutputsMatchCalls | lib/routes/voice-agent.js:140-150 | over any sequence of notifications, the tool outputs sent carry exactly the ids of the tool calls received, one each, in the same order |
| Session.RepliesMatchCompletions | lib/routes/voice-agent.js:105 | over any sequence of notifications, `reply` is issued exactly once per completion |
| Session.HangupsMatchFailures | lib/routes/voice-agent.js:89-104 | over any sequence of notifications, `hangup` is issued exactly once per failed completion, and by no other handler |

## Left out

- The HTTP requests to the geocoding and weather services and the building and
  encoding of their URLs. Their outcomes are inputs. The weather payload is an
  opaque text. Coordinates are `real`s, and floating-point behaviour is not
  modelled.
- The geocoding result's name, country, timezone and population. They are only
  logged.
- All logging, including the `onEvent`, `onClose` and `onError` handlers, which
  only log. In `Session.Handle` they issue no directives.
- The `transcripts` and `logger` session locals, because the transcripts list is
  never read.
- The unused `require` of an npm output helper.
- The event-emitter binding mechanism, `async` scheduling, and reading the
  credential from the process environment. The credential is an explicit
  `Option<string>` input.
- Throws that crash a handler before it sends anything are preconditions, not
  modelled behaviour. A failed completion with no `error` object is excluded by
  `FinalHandler.Handleable`. A tool call without `args` is excluded by
  `ToolCall.Handleable`.
- ToolCall.OnToolCall: the error payload is a `ToolFailure` (`LocationNotFound`
  or `LookupFailed(reason)`), not the raw JavaScript error object that the code
  serializes.
- Session.HandleAll: handlers are assumed to run one after another. The
  tool-call handler awaits two lookups, so overlapping calls could send their
  outputs in another order. The ordering in `Session.ToolOutputsMatchCalls`
  holds for the one-after-another schedule.
- ToolCall.OnToolCall: `sendToolOutput` is assumed not to throw. If the
  success-path call threw, the `catch` would send a second, error output under
  the same id, and "exactly one output" would not hold.
- RetryDelay.Exec: strings are sequences of characters, so `Capture.at` counts
  characters, whereas JavaScript's match index counts UTF-16 code units. The
  handler never reads the index.
- ToolCall.OnToolCall: a non-string `location` or `scale` argument, and a
  geocoding result without coordinates, are not modelled.
