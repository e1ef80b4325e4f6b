# Dialer backend: voice fallback routing and the request log

This project models the backend of a small telephony dialer. The backend is one Express application. It relays outbound calls and text messages to a telephony provider and answers the provider's webhooks. Two pieces of logic are modelled and proved.

1. **Sequential fallback voice routing** (module `Voice`, on top of module `Js`).
   - `/voice/incoming` always rings the first configured number, with a 20-second ring timeout and `/voice/next` as the follow-up action.
   - `/voice/next` rings the second number only when the first leg's `DialCallStatus` is not `"completed"` and the second number is present and non-empty. Otherwise it speaks an apology.
   - The configuration `FORWARD_TO_NUMBER` is split on `','` at every request. `Js.Split` follows JavaScript's `String.prototype.split` with a one-character separator.
   - `Js.Truthy` follows JavaScript truthiness, so a trailing comma (`"A,"`) leads to the apology and never to a dial of `""`.
   - An absent `DialCallStatus` is `undefined`, which is `!== 'completed'`, so the second number is rung.
   - TwiML is modelled as a list of verbs (`Dial(number, action, timeout)`, `Say(text)`), not as XML.
2. **The in-memory log and the handlers that write to it** (module `Server`).
   - The process-wide `logs` array becomes the `logs: seq<LogEntry>` field of class `Backend`.
   - There is one method per endpoint: `PlaceCall` (`/call`), `SendSms` (`/sms/send`), `ReceiveSms` (`/sms/receive`) and `RecordingCompleted` (`/recording/completed`).
   - `Handle` routes a `Request` to its endpoint. It also answers the two voice webhooks, which leave the log unchanged.
   - The provider's reply to `calls.create` / `messages.create` is a parameter: `Success(sid)` or `Failure(message)`.
   - The entry's timestamp and the environment (`TWILIO_NUMBER`, `FORWARD_TO_NUMBER`) are parameters too.
   - Request bodies are maps from field name to string. An absent field is `None` (JavaScript `undefined`). Interpolating `undefined` into the outbound-call announcement gives the text `"undefined"`, as a template literal does.

The pure functions `Appended` (the entries one request adds) and `Reply` (its answer) specify the router. `Handle`'s contract ties the new log and the reply to them. The lemmas about `Replay` give the log's append-only behaviour over any sequence of requests.

`/recording/completed` answers with Express's `res.sendStatus(200)`, which sets status 200 and writes the reason phrase `OK` as a `text/plain` body; `StatusOnly(200)` stands for that reply.

## Model

| member | source | states |
|---|---|---|
| `Js.Split` | server.js:95 | `FORWARD_TO_NUMBER.split(',')` always has at least one piece, and no piece contains the separator |
| `Js.SplitCount` | server.js:95 | the split has exactly one piece more than the string has commas |
| `Js.JoinSplit` | server.js:95 | joining the pieces with `','` gives back the configured string |
| `Js.SplitJoin` | server.js:106 | splitting a joined list of comma-free numbers gives back that list, so the split loses nothing |
| `Js.SplitAtFirst` | server.js:106 | the split is the text before the first comma followed by the split of the rest, or the whole string when there is no comma |
| `Voice.NumbersHead` | server.js:99-112 | `numbers[0]` is the text before the first comma; `numbers[1]` is the text between the first and second comma, or `undefined` when there is no comma |
| `Voice.Incoming` | server.js:94-103 | `/voice/incoming` gives exactly one `Dial`: to the text before the first comma, with action `/voice/next` and timeout 20. Nothing else is read |
| `Voice.Next` | server.js:105-119 | `/voice/next` dials the second number, with no options, exactly when the status is not `"completed"` and the second number is present and non-empty; otherwise it gives exactly one `Say` of the apology |
| `Voice.NextDialsIff` | server.js:111-115 | the same rule over the split list, in both directions: a `Dial(numbers[1])` if and only if status ≠ `"completed"`, `numbers.length >= 2` and `numbers[1] != ""`; otherwise the apology |
| `Voice.TrailingCommaApologises` | server.js:111 | `"A,"` splits into `["A", ""]`, and `/voice/next` then apologises whatever the status |
| `Voice.CompletedApologises` | server.js:111-114 | status `"completed"` gives the apology even when two numbers are configured |
| `Voice.LaterNumbersIgnored` | server.js:95-112 | numbers at index 2 and beyond change neither voice response; `/voice/incoming` dials the first number |
| `Voice.FallbackScenarios` | server.js:94-119 | `"A,B"` rings A first. It then rings B after `no-answer` or when no status is sent. `"A"`, `"A,"` and a completed leg give the apology |
| `Server.AnnouncementNamesAgent` | server.js:29 | the spoken text is `"Hello from your Bitrix dialer! This is a test call for "`, then the interpolated agent, then `"."`; the agent can be read back out of it |
| `Server.AnnouncementInjective` | server.js:29 | equal announcements can only come from agents that interpolate to the same text (an absent agent reads as `"undefined"`) |
| `Server.Appended` | server.js:32-130 | a request appends exactly one entry when it logs (inbound SMS and recording always, outbound only on provider success) and none otherwise (voice routes, provider failure); the entry's `type` tag matches the route, its time is the request's, and an outbound entry carries the provider's sid, `to = phone` and `agent` |
| `Server.OutboundReplyMatchesLog` | server.js:26-70 | an outbound endpoint answers `{status:'success', sid}` with code 200 exactly when it logged, with the logged sid; otherwise it answers code 500 with `{status:'error', message}` carrying the provider's message |
| `Server.ReplayAppends` | server.js:13 | after any sequence of requests the log is the old log followed by each request's entries in request order: nothing is lost, changed or reordered |
| `Server.AllAppendedLength` | server.js:13 | the requests add one entry per logging request |
| `Server.ReplayLength` | server.js:13 | the old log is a prefix of the new log; starting from an empty log, N logging requests leave exactly N entries |
| `Server.ReplayConcat` | server.js:13 | handling two batches of requests one after the other is the same as handling their concatenation |
| `Server.Backend.constructor` | server.js:13 | the log starts empty |
| `Server.Backend.PlaceCall` | server.js:21-44 | the provider is asked to call `phone` from `TWILIO_NUMBER` with the announcement TwiML. On success the log gains exactly `{type:'call', to:phone, agent, sid}` and the reply carries that sid. On failure the log is unchanged and the reply is 500 with the error message |
| `Server.Backend.SendSms` | server.js:47-71 | the provider is asked to text `message` to `phone` from `TWILIO_NUMBER`. On success the log gains exactly `{type:'sms', to:phone, agent, message, sid}` and the reply carries that sid. On failure the log is unchanged and the reply is 500 with the error message |
| `Server.Backend.ReceiveSms` | server.js:74-91 | the log always gains exactly `{type:'inbound_sms', from:From, to:To, message:Body}`; the reply is always the fixed acknowledgement XML |
| `Server.Backend.RecordingCompleted` | server.js:122-133 | the log always gains exactly `{type:'call_recording', callSid:CallSid, recordingUrl:RecordingUrl}`; the reply is status 200 |
| `Server.Backend.Handle` | server.js:21-133 | any request extends the log by exactly its `Appended` entries: the old log is a prefix and at most one entry is added. Both voice webhooks leave the log unchanged. The reply is `Reply(r, env)` |

## Left out

- Express setup, CORS, body parsing middleware, loading `.env` and `app.listen` (server.js:1-10, 136-139): framework plumbing and I/O.
- `GET /` and its liveness text (server.js:16-18): a fixed string with no logic.
- The Twilio SDK: constructing the client for each request, and the network calls `calls.create` and `messages.create`. The model records the request a handler makes (`ProviderRequest`) and takes the provider's outcome as a parameter. The client is constructed outside the `try` (server.js:23, server.js:49); if that construction throws, the request gets neither a 500 reply nor a log entry, and the `Failure` outcome does not cover that case.
- Serialising TwiML to XML (`VoiceResponse.toString()`): library output. The verbs are modelled as a datatype. The provider's own defaults for a `Dial` without options (its default ring timeout) are not modelled.
- `new Date().toISOString()`: a clock read. It is an opaque `Timestamp` parameter.
- The crash when `FORWARD_TO_NUMBER` is not set (calling `split` on `undefined`), and an unset `TWILIO_NUMBER`: environment problems. Both are modelled as strings that are always present.
- Request field values other than a single string: JSON numbers, objects or arrays, and repeated form keys. The model reads each field as a string or `undefined`.
- Strings as UTF-16 code units: JavaScript strings may hold a lone surrogate (a JSON body can carry `"\uD800"`), which Dafny's `char` cannot. Fields are modelled as sequences of Unicode scalar values; the `','` split and the comparison with `'completed'` are unaffected.
- An error whose `message` is `undefined`: the provider's failure message is always a string.
- Interleaving of concurrent requests around the `await` of a provider call: the event loop's scheduling is environmental. Requests are handled one after another, to completion.

