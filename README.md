# ThermalSync backend: session table and forecast post-processing

This project is a Dafny model of the logic in the ThermalSync backend (`app.js`).
The backend is an Express service. It has two parts worth modelling.

- **Conversation sessions.** A module-level dictionary `sessions` maps a session id to the list of turns of that conversation.
  `GET /create_session` draws a uuid and maps it to an empty list.
  `POST /chat` handles one turn of a conversation:
  - it validates the message;
  - it works out which session to use;
  - it records the user's turn;
  - it calls the language model with the session's whole history;
  - on success it records the assistant's reply.
  The model is the class `Sessions.SessionStore`. Its field `sessions: map<string, seq<Turn>>` is updated in place by the methods `CreateSession` and `Chat`.
  Each method's postcondition ties the new table to a pure function (`Created`, `ChatTurn`). The lemmas beside those functions state what one request does and what any sequence of requests keeps.
- **Forecast post-processing** in `POST /predicted`:
  - the coordinate check;
  - the per-day `forecast` list;
  - the per-day `output` list computed by `calculateOutputReduction`.
  These are pure functions in module `Forecast`.

Module `Http` holds the request-body values and JavaScript's truthiness test (`!x`), which both handlers use for validation.

Abstractions:
- `uuidv4()` becomes a parameter `newId`. The handlers write `sessions[id] = []` even when the id is already a key, so the methods do not require the id to be new. Only the members that need freshness assume it: `RunOnlyAppends`, `ApplyOnlyAppends`, the growth clause of `ChatTouchesOnlyResolvedSession` and the size clause of `Created`.
- The language-model call becomes an input `ProviderOutcome`: `Replied(reply)` or `Failed`. `Failed` stands for any exception inside the `try`. The message list the provider is called with is returned as the out-parameter `prompt`.
- The weather call becomes an input `WeatherFetch`: the upstream list of forecast days, or `FetchFailed`.
- Numbers are `real`, not IEEE doubles. A JSON body cannot carry NaN, so the only falsy numbers are 0 and -0.

Behaviour of the code that a reader might not expect, modelled as written:
- A coordinate of `0` is rejected. This is a real position on the equator or the prime meridian, and a presence check would accept it. The code's `!lat` is a truthiness test, so it rejects `0` (`Forecast.ZeroCoordinateRejected`).
- Roles do not alternate. A failed provider call leaves the user turn in place, so the next chat adds a second user turn in a row (`Sessions.FailedReplyLeavesTwoUserTurns`).
  What does hold, for requests handled one after another, is weaker. Every history starts with a user turn, and each assistant turn directly follows a user turn (`Sessions.RunKeepsWellFormed`).
- An unknown client-supplied session id is kept, not replaced. A session is created under that exact id, and the answer echoes it (app.js:46-49).
- `calculateOutputReduction` returns `100 - reduction`, the percentage of output that remains. It does not return the reduction itself despite its name, and nothing bounds it below.

## Model

| member | source | states |
|---|---|---|
| `Http.Truthy` | app.js:93 | JavaScript truthiness of a request-body value, the definition every validation check is stated over: falsy exactly for a missing key, `null`, `false`, `0` and `""` |
| `Http.Present` | app.js:35-42 | the `!message` and `!currentSessionId` tests, by the same rule as `Truthy`: falsy exactly when the field is missing or `""` |
| `Sessions.ResolvedId` | app.js:39-49 | the id `/chat` works on: a truthy supplied id is kept even when unknown, otherwise the drawn id is used; never empty when the drawn id is not |
| `Sessions.PriorHistory` | app.js:39-49 | the history before the user turn is added: the stored one for a known truthy id, otherwise empty |
| `Sessions.ChatTurn` | app.js:32-87 | one `/chat` request, the definition the chat lemmas are stated over: the provider is called exactly when the message is truthy; answers 200 exactly when it is and the call succeeds, echoing the resolved id; adds at most the resolved id as a key |
| `Sessions.SessionStore.constructor` | app.js:22 | the session table starts empty |
| `Sessions.Created` | app.js:25-29 | creating a session adds exactly the drawn id, mapped to an empty history; every other entry is unchanged; with a new id the table grows by one |
| `Sessions.CreatedKeepsWellFormed` | app.js:25-29 | creating a session keeps every history well formed |
| `Sessions.SessionStore.CreateSession` | app.js:25-29 | returns the drawn id; the new table is `Created(old table, id)`; the table invariant is kept |
| `Sessions.SessionStore.Chat` | app.js:32-87 | the in-place handler's new table, answer and provider input are exactly those of `ChatTurn` on the old table; the table invariant is kept |
| `Sessions.ChatRejectsMissingMessage` | app.js:35-37 | the answer is 400 exactly when the message is absent or empty; then the table is unchanged and the provider is not called |
| `Sessions.ChatWithoutIdStartsFreshSession` | app.js:39-45 | without a truthy session id, the drawn id is used and the provider sees only the new message; a success echoes the drawn id |
| `Sessions.ChatWithUnknownIdCreatesThatSession` | app.js:46-49 | an unknown supplied id becomes a new key under that exact id, with an empty prior history; a success echoes that id |
| `Sessions.ChatWithKnownIdContinuesHistory` | app.js:39-52 | a known supplied id adds no key, and the provider sees the stored history followed by the new message |
| `Sessions.ChatSendsHistoryEndingInMessage` | app.js:52-65 | the provider is called with the resolved session's whole prior history, ending in one user turn that holds the message |
| `Sessions.ChatAppendsReplyOnSuccess` | app.js:74-82 | on success the stored history is what was sent plus one assistant turn holding the reply; the answer is 200 with the resolved id and that reply |
| `Sessions.ChatKeepsUserTurnOnFailure` | app.js:52-86 | on failure the history keeps the new user turn and gains no assistant turn (no rollback); the answer is 500 |
| `Sessions.ChatTouchesOnlyResolvedSession` | app.js:39-77 | only the resolved session's entry changes, every other entry is untouched, and when the id was not a colliding draw the history only grows |
| `Sessions.ChatKeepsWellFormed` | app.js:52-77 | a chat request keeps every history starting with a user turn, with each assistant turn right after a user turn |
| `Sessions.RunKeepsWellFormed` | app.js:22-87 | after any sequence of create and chat requests every history is still well formed in that sense |
| `Sessions.RunOnlyAppends` | app.js:22-87 | if every drawn id is new, no session ever disappears and every history is a prefix of its later values |
| `Sessions.ConversationRoundTrip` | app.js:25-82 | create, then two successful chats: the history is `[User hello, Assistant r1, User again, Assistant r2]` and each answer echoes the id |
| `Sessions.FailedReplyLeavesTwoUserTurns` | app.js:52-86 | a failed call followed by another chat leaves two user turns in a row, so roles need not alternate |
| `Forecast.CalculateOutputReduction` | app.js:107-113 | the result is 100 minus the heat penalty `max(0, (t - 25) * 0.5)`; it never exceeds 100 and equals 100 exactly when t <= 25 |
| `Forecast.OutputReductionIsPiecewiseLinear` | app.js:107-113 | 100 for t <= 25, `100 - (t - 25) * 0.5` for t > 25 |
| `Forecast.OutputReductionNonIncreasing` | app.js:107-113 | a hotter day never yields a larger output percentage |
| `Forecast.OutputReductionUnclamped` | app.js:107-113 | the result is negative exactly when t > 225 (no lower clamp) |
| `Forecast.OutputReductionSamples` | app.js:107-113 | 30 degrees gives 97.5; 25 and 20 give 100 |
| `Forecast.OutputReductions` | app.js:115-117 | one output value per forecast day, in day order, each computed from that day's average temperature |
| `Forecast.ToForecastDay` | app.js:136-142 | the renaming of one upstream day, the definition `ForecastDays` is stated over: temp is the average temperature, wind speed the maximum wind, humidity the average humidity |
| `Forecast.ForecastDays` | app.js:135-143 | one forecast entry per upstream day, in day order, each the renaming of that day |
| `Forecast.OutputMatchesForecastDay` | app.js:115-143 | the i-th output value is computed from the temperature of the i-th forecast entry, which carries the i-th day's date |
| `Forecast.ProjectionsDistributeOverConcat` | app.js:115-143 | both per-day lists of a concatenated day list are the concatenations of the lists of its parts |
| `Forecast.CoordinatesGiven` | app.js:93 | the check `!lat` or `!lon`: both coordinates must be values outside JavaScript's falsy list |
| `Forecast.Predicted` | app.js:90-155 | 400 exactly when a coordinate is falsy; a report exactly when the coordinates pass and the upstream returns at least one day; a report carries both per-day lists, each as long as the day list |
| `Forecast.ZeroCoordinateRejected` | app.js:93-97 | a latitude or longitude of 0 is answered 400 whatever the other coordinate is |
| `Forecast.MissingLongitudeRejected` | app.js:93-97 | a missing longitude is answered 400 |
| `Forecast.NonzeroCoordinatesAccepted` | app.js:93-154 | non-zero numeric coordinates pass the check; an upstream failure then gives 500 |

## Left out

- Express routing, CORS, body parsing, dotenv, `app.listen` and console logging (app.js:1-19, 226-228): framework plumbing with no logic of its own.
- The OpenAI and weatherapi.com network calls (app.js:63-71, 101-104): foreign library calls. They appear only as the outcomes `ProviderOutcome` and `WeatherFetch`. The request parameters are not modelled: the model name, the sampling settings and the URL with its `days=11` horizon.
- The content shapes of the turns sent to the provider: a user turn is `[{type: "text", text}]` and an assistant turn a plain string (app.js:52-60, 74-77). The model keeps only the role and the text of each turn.
- A provider answer whose first choice has `null` content: the model's reply is always a string.
- `/generate_instructions` (app.js:158-198): it fills a prompt template and runs `JSON.parse` on free-form model output, with nothing to verify. Its `!weatherData` check is dead code, because `JSON.stringify` of a parsed body is never falsy.
- The location and current-conditions blocks of the `/predicted` answer (app.js:119-133). They are a field-by-field copy of the upstream payload. One effect is kept: reading `forecastDays[0]` on an empty day list throws, which gives 500.
- The commented-out CSV code (app.js:204-224).
- IEEE-754 rounding in `calculateOutputReduction`: the model computes over exact `real`s.
- Concurrent `/chat` requests. The handler awaits the provider between its two pushes, and the code has no locking. Two overlapping requests on the same session can therefore interleave, for example into `[User, User, Assistant, Assistant]`. `Sessions.RunKeepsWellFormed` covers requests handled one after another only.
- `sessionId` and `message` values that are not strings (numbers, objects) are left out: their coercion to a property key or message content is out of scope. The same goes for ids that name an `Object.prototype` property such as `constructor`. The plain `{}` treats those as existing sessions, and the `.push` then throws outside the `try`.
- Sessions.ChatTouchesOnlyResolvedSession: its "history only grows" clause is stated only when the id was supplied or the drawn id is new. A colliding uuid draw resets that history to empty, as the code's `sessions[id] = []` does.
