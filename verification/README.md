# CompForge core, modelled in Dafny

CompForge is a web application that generates React components with an
upstream chat-completion model. This project models four small pieces of its
logic:

- **AI generation service** (`backend/src/services/aiService.js`). It builds the
  message list (system prompt, chat history, user prompt). It turns the
  model's raw answer into `{jsxCode, cssCode}` and falls back to the raw text
  when that answer is not usable JSON. It delegates "modify component" to
  generation with a derived prompt. It relays a streamed answer: the
  `'data'` handler reads the `data: ` lines of each upstream chunk and
  forwards delta fragments, and the `'end'` handler writes one final
  normalised frame.
- **Client session store** (`frontend/src/store/sessionStore.ts`). It holds the
  session list, the current session, and the loading and error flags, and it
  mirrors the server's create, read, update and delete calls.
- **Client auth store** (`frontend/src/store/authStore.ts`). It is a small state
  machine over user, token, the signed-in flag and the loading and error
  flags. It also defines the persisted projection of that state.
- **OAuth account linking** (`backend/src/services/oauthService.js`). It finds
  the user by provider identity, else links the identity to the user with the
  profile's email, else creates a user. It also holds the provider callbacks
  and builds the OAuth URLs.

Modules:

- `wrappers.dfy`: `Option`, `Outcome`, `Result`, and JavaScript's `||` on strings.
- `strings.dfy`: `split('\n')`, `startsWith`, and occurrence at an index.
- `ai_service.dfy`: `AiService`.
- `stream_relay.dfy`: `StreamRelay`. It gives one specification function per
  handler, the lemmas about them, and the class `Relay`, whose methods update
  the per-call state in place and are proved equal to those functions. It
  also holds a corrected pair of handlers, beside the handlers as written
  (see Findings).
- `session_store.dfy`: `SessionStore`.
- `auth_store.dfy`: `AuthStore`.
- `oauth_service.dfy`: `OAuthService`.

How the environment is modelled:

- `JSON.parse` is a parameter `parse: string -> Option<Payload>`. It yields
  `None` where the call throws. It exposes only the fields the code reads.
- Each awaited remote call is an `Outcome` parameter: `Success(v)`, or
  `Failure(serverMessage)`.
- The streaming response `res` is modelled as a log of written frames plus the
  position at which `res.end()` was first called. The model therefore records
  honestly any frame the code writes after ending the response.
- The upstream model is a function `Upstream` from message lists to outcomes.

Points of the code's behaviour that the model keeps as written:

- The `'end'` handler writes the final frame even after `[DONE]` has ended
  the response, so a stream that finishes with `data: [DONE]` never
  delivers its normalised result (see Findings). A stream without a
  terminator does deliver it.
- A mid-stream upstream error has no listener, so nothing is written and
  the response is never ended. Only a failure of the initial request
  writes the error frame (`aiService.js:183-187`).
- `||`, not `??`, decides each fallback. An empty `jsxCode` therefore falls
  back to the raw text, and an empty `cssCode` becomes `""`.

## Model

| member | source | states |
|---|---|---|
| `Wrappers.OrElse` | backend/src/services/aiService.js:67-68 | JavaScript `a \|\| b` on an optional string: the value when it is present and non-empty, else the fallback; the stores use it for `error.response?.data?.message \|\| fallback` |
| `Strings.SplitLines` | backend/src/services/aiService.js:138 | `split('\n')` yields at least one piece, and no piece contains a newline |
| `Strings.JoinSplitLines` | backend/src/services/aiService.js:138 | joining the pieces of a split with newlines gives back the chunk |
| `Strings.SplitJoinLines` | backend/src/services/aiService.js:138 | splitting a join of newline-free lines gives back the lines, so split and join are inverses |
| `AiService.Project` | backend/src/services/aiService.js:32-35 | the history is mapped to role and content only, same length, same order |
| `AiService.BuildMessages` | backend/src/services/aiService.js:12-40 | the message list is the system message, then each history entry's role and content in order, then the user prompt; its length is the history length plus 2 (the streaming path builds the same list at 86-108) |
| `AiService.ExtraHistoryFieldsDropped` | backend/src/services/aiService.js:32-35 | histories that agree on role and content give identical requests, so other history fields never reach upstream |
| `AiService.Normalize` | backend/src/services/aiService.js:63-76 | it never fails; `jsxCode` is empty only for empty raw text; `jsxCode` is the raw text or the parsed field; whenever the text parses, `cssCode` is the parsed `cssCode` if non-empty, else `""`; unparsable text gives `{raw, ""}` |
| `AiService.NormalizeStructuredAnswer` | backend/src/services/aiService.js:64-69 | a parsed answer with a non-empty `jsxCode` is returned as it is, with `cssCode` defaulting to `""` |
| `AiService.NormalizeFallback` | backend/src/services/aiService.js:67-75 | a parse failure, or a missing or empty `jsxCode`, yields the raw text as `jsxCode`; `cssCode` is `""` on a parse failure and `parsed.cssCode \|\| ''` otherwise |
| `AiService.GenerateComponent` | backend/src/services/aiService.js:10-81 | it fails exactly when the upstream call on the built messages fails, and then only with "Failed to generate component"; otherwise it returns the normalised upstream text |
| `AiService.ModifyPrompt` | backend/src/services/aiService.js:193-201 | the derived prompt holds the original code and the request verbatim, at fixed places after fixed headings, and ends with the fixed closing instruction |
| `AiService.ModifyPromptKeepsInputs` | backend/src/services/aiService.js:193-201 | with originals of equal length, equal prompts imply equal original code and equal requests |
| `AiService.ModifyComponent` | backend/src/services/aiService.js:191-207 | it succeeds exactly when generation on the derived prompt with the same history succeeds, with the same result; its only error is "Failed to modify component" |
| `AiService.ModifyAsksWithOriginal` | backend/src/services/aiService.js:203 | the last upstream message of a modification is a user message that embeds the original code and the request verbatim |
| `StreamRelay.Write` | backend/src/services/aiService.js:155 | `res.write` appends exactly the frame to the log and changes nothing else |
| `StreamRelay.End` | backend/src/services/aiService.js:146 | `res.end()` on an open response marks it ended at exactly the current log length, so everything written so far is delivered; a second call changes nothing |
| `StreamRelay.DataPayload` | backend/src/services/aiService.js:141-142 | only lines starting with `data: ` yield a payload, and `"data: " + payload == line` |
| `StreamRelay.DoneOnlyOnDoneLine` | backend/src/services/aiService.js:141-144 | the payload is `[DONE]` exactly when the line is `data: [DONE]` |
| `StreamRelay.DeltaFragment` | backend/src/services/aiService.js:150-153 | a fragment is forwarded exactly when the payload parses and its delta content is a non-empty string, and it is that string (both directions) |
| `StreamRelay.Fragments` | backend/src/services/aiService.js:140-159 | the fragments collected from a chunk's lines before the terminator are all non-empty |
| `StreamRelay.LinesStep` | backend/src/services/aiService.js:140-161 | the `for` loop of the `'data'` handler over a chunk's lines, with the early return on `[DONE]`: frames are only ever appended to the log, and an end already recorded is never moved |
| `StreamRelay.LinesStepFrames` | backend/src/services/aiService.js:140-161 | a chunk's lines write one delta frame per fragment, in arrival order, then `[DONE]` if a terminator line occurs, and nothing else |
| `StreamRelay.LinesStepContent` | backend/src/services/aiService.js:150-153 | `fullContent` grows by exactly the concatenated fragments of the chunk |
| `StreamRelay.LinesStepEnds` | backend/src/services/aiService.js:144-147 | the response ends exactly when a terminator line occurs, just after the `[DONE]` frame; otherwise its end is unchanged |
| `StreamRelay.LinesStepEffect` | backend/src/services/aiService.js:140-161 | the three facts above together, for one chunk's lines |
| `StreamRelay.ChunkStep` | backend/src/services/aiService.js:137-162 | one `'data'` event: the chunk's fragments are written as delta frames in arrival order and appended to `fullContent`, then `[DONE]` if a terminator line occurs, and the response ends exactly when one occurs |
| `StreamRelay.DoneCutsChunk` | backend/src/services/aiService.js:144-148 | after a `data: [DONE]` line, the remaining lines of that chunk have no effect |
| `StreamRelay.SkippedLine` | backend/src/services/aiService.js:140-159 | a non-`data:` line, an unparsable payload or one with no delta writes nothing and leaves `fullContent` unchanged |
| `StreamRelay.ChunkStepKeepsAccounted` | backend/src/services/aiService.js:150-156 | invariant: `fullContent` equals the concatenation of all delta frames written, and every chunk preserves it |
| `StreamRelay.EndStep` | backend/src/services/aiService.js:164-181 | the end handler writes exactly one frame `Final(Normalize(fullContent))` and then ends the response; on an open response it ends just after that frame, and an already ended response keeps its earlier end |
| `StreamRelay.EndStepKeepsAccounted` | backend/src/services/aiService.js:164-181 | the final frame does not disturb the accounting invariant |
| `StreamRelay.StartState` | backend/src/services/aiService.js:183-187 | a rejected streaming request leaves the single frame `{error: "Failed to generate component"}` and an ended response; an accepted one starts with nothing written and `fullContent = ""` |
| `StreamRelay.Run` | backend/src/services/aiService.js:137-181 | a whole streaming call as written (every `'data'` event, then `'end'`): the response ends, frames are added, and the last frame written is the final frame carrying `Normalize` of the accumulated text |
| `StreamRelay.RunNoDoneEndsLast` | backend/src/services/aiService.js:137-181 | as written, a stream with no `data: [DONE]` line ends only in the `'end'` handler, just after the final frame |
| `StreamRelay.RunNoDoneDelivers` | backend/src/services/aiService.js:164-181 | as written, a stream with no terminator is delivered whole: nothing is written after the end, and the last frame the client receives carries `Normalize` of the accumulated text |
| `StreamRelay.EndedAtLengthSendsAll` | backend/src/services/aiService.js:180 | a response ended just after its last frame has delivered every frame |
| `StreamRelay.RunForwardsEveryFragment` | backend/src/services/aiService.js:137-181 | over a whole stream, from any state whose text matches its delta frames (an accepted request's start among them), `fullContent` is the text of all forwarded fragments, and the last frame is the final frame carrying `Normalize(fullContent)`, the same result the non-streaming path gives for that text |
| `StreamRelay.OneDeltaChunk` | backend/src/services/aiService.js:150-156 | a chunk made of one `data: ` line whose payload parses with non-empty delta content `c` appends `c` to `fullContent` and writes exactly the frame `Delta(c)` |
| `StreamRelay.DoneChunk` | backend/src/services/aiService.js:144-147 | a `data: [DONE]` chunk writes `data: [DONE]` and ends the response |
| `StreamRelay.DoneThenEndWritesAfterEnd` | backend/src/services/aiService.js:144-181 | as written: for any two delta lines, two deltas then `[DONE]` deliver exactly the deltas and the terminator, and the final frame is written after the response has ended |
| `StreamRelay.LinesStepChecked` | backend/src/services/aiService.js:140-161 | corrected line loop: frames are only appended and a recorded end is never moved |
| `StreamRelay.LinesStepCheckedAgrees` | backend/src/services/aiService.js:144-147 | on an open response the corrected loop equals the original, except that the terminator frame is preceded by the final normalised frame and the response ends after both |
| `StreamRelay.ChunkStepChecked` | backend/src/services/aiService.js:137-162 | corrected data handler: a chunk after the end changes nothing; otherwise it gives the original handler's text and end, and on a terminator writes `Final(Normalize(fullContent))` just before `[DONE]`, with nothing after the end |
| `StreamRelay.EndStepChecked` | backend/src/services/aiService.js:164-181 | corrected end handler: the final frame is delivered on an open response and nothing is written on an ended one |
| `StreamRelay.RunChecked` | backend/src/services/aiService.js:137-181 | a whole call with the corrected handlers: the response always ends, and a response already ended is left as it is |
| `StreamRelay.RunCheckedNeverWritesAfterEnd` | backend/src/services/aiService.js:137-181 | corrected relay: from any state with nothing written after its end, nothing is ever written after the end |
| `StreamRelay.RunCheckedDeliversFinal` | backend/src/services/aiService.js:137-181 | corrected relay on an accepted stream: whether it finishes with `data: [DONE]` or by the upstream end, the client receives every delta fragment and the final frame carrying `Normalize` of their text, and nothing is written after the end |
| `StreamRelay.Relay.Start` | backend/src/services/aiService.js:84-135 | the per-call state starts as `StartState` of whether upstream accepted the built messages |
| `StreamRelay.Relay.Emit` | backend/src/services/aiService.js:145 | the in-place `res.write` equals `Write` on the state |
| `StreamRelay.Relay.EndResponse` | backend/src/services/aiService.js:146 | the in-place `res.end()` equals `End` on the state |
| `StreamRelay.Relay.OnData` | backend/src/services/aiService.js:137-162 | the loop over a chunk's lines, including the early return at `[DONE]`, leaves the state `ChunkStep` of the old state |
| `StreamRelay.Relay.OnEnd` | backend/src/services/aiService.js:164-181 | the end handler leaves the state `EndStep` of the old state |
| `StreamRelay.Relay.OnDataChecked` | backend/src/services/aiService.js:137-162 | the corrected in-place loop (chunks after the end ignored, final frame written before `[DONE]`) leaves the state `ChunkStepChecked` of the old state |
| `StreamRelay.Relay.OnEndChecked` | backend/src/services/aiService.js:164-181 | the corrected end handler leaves the state `EndStepChecked` of the old state |
| `SessionStore.ReplaceById` | frontend/src/store/sessionStore.ts:64 | the length is kept, every entry with the id becomes the server's copy, and every other entry is unchanged |
| `SessionStore.ReplaceByIdAbsent` | frontend/src/store/sessionStore.ts:64 | a list without the id is left as it is |
| `SessionStore.ReplaceByIdSameId` | frontend/src/store/sessionStore.ts:64 | replacing with a session of that id is idempotent and keeps every position's id |
| `SessionStore.DeleteById` | frontend/src/store/sessionStore.ts:82 | no entry with the id is left, and the list does not grow |
| `SessionStore.DeleteByIdMembers` | frontend/src/store/sessionStore.ts:82 | a session survives exactly when it was present and has another id |
| `SessionStore.DeleteByIdAbsent` | frontend/src/store/sessionStore.ts:82 | deleting an id no entry has changes nothing |
| `SessionStore.DeleteByIdTwice` | frontend/src/store/sessionStore.ts:82 | delete is idempotent: applying it twice equals applying it once |
| `SessionStore.DeleteByIdConcat` | frontend/src/store/sessionStore.ts:82 | delete distributes over concatenation, so survivors keep their relative order |
| `SessionStore.DeleteByIdKeepsOthers` | frontend/src/store/sessionStore.ts:82 | every other session keeps its number of occurrences |
| `SessionStore.MergeComponent` | frontend/src/store/sessionStore.ts:102-105 | each supplied field overrides and each other field is kept |
| `SessionStore.MergeComponentLaws` | frontend/src/store/sessionStore.ts:102-105 | an empty patch is the identity, and a patch applied twice equals it applied once |
| `SessionStore.Store.constructor` | frontend/src/store/sessionStore.ts:22-26 | the store starts with no sessions, no current session, not loading and no error |
| `SessionStore.Store.BeginRequest` | frontend/src/store/sessionStore.ts:29 | each remote action starts with `isLoading = true, error = null` and touches nothing else |
| `SessionStore.Store.Fail` | frontend/src/store/sessionStore.ts:33-38 | the catch path records the message, clears loading, and leaves sessions and the current session unchanged |
| `SessionStore.Store.LoadSessions` | frontend/src/store/sessionStore.ts:28-39 | success replaces the list; failure keeps it and records the server message or "Failed to load sessions"; loading ends on both paths; nothing is rethrown |
| `SessionStore.Store.CreateSession` | frontend/src/store/sessionStore.ts:41-57 | success appends the new session after the old ones and makes it current; failure changes neither, records the message or "Failed to create session", and rethrows |
| `SessionStore.Store.UpdateSession` | frontend/src/store/sessionStore.ts:59-75 | success gives `ReplaceById`, and the current session is replaced only when its id matches; failure changes neither and rethrows with the message or "Failed to update session" |
| `SessionStore.Store.DeleteSession` | frontend/src/store/sessionStore.ts:77-92 | success gives `DeleteById`, and the current session is cleared only when its id matches; failure changes neither, records the message or "Failed to delete session", and does not rethrow |
| `SessionStore.Store.SetCurrentSession` | frontend/src/store/sessionStore.ts:94-96 | only the current session changes |
| `SessionStore.Store.UpdateCurrentComponent` | frontend/src/store/sessionStore.ts:98-108 | a missing current session stays missing; otherwise only its component changes, by `MergeComponent`; the session list is untouched |
| `SessionStore.Store.ClearError` | frontend/src/store/sessionStore.ts:110-112 | only the error changes, to null |
| `SessionStore.Store.SetLoading` | frontend/src/store/sessionStore.ts:114-116 | only the loading flag changes |
| `AuthStore.Partialize` | frontend/src/store/authStore.ts:117-121 | the snapshot holds exactly user, token and the signed-in flag, and its type has no loading or error field |
| `AuthStore.PartializeIgnoresTransient` | frontend/src/store/authStore.ts:117-121 | the snapshot does not depend on `isLoading` or `error` |
| `AuthStore.Store.constructor` | frontend/src/store/authStore.ts:26-30 | the store starts signed out with no token, which is consistent |
| `AuthStore.Store.BeginRequest` | frontend/src/store/authStore.ts:33 | each remote action starts with `isLoading = true, error = null` and touches nothing else |
| `AuthStore.Store.Settle` | frontend/src/store/authStore.ts:34-49 | success sets user and token from the response, signs in and ends loading; failure records the message or fallback, ends loading, keeps the credentials and rethrows; consistency is kept |
| `AuthStore.Store.Login` | frontend/src/store/authStore.ts:32-50 | as `Settle` with the fallback "Login failed", after the begin step |
| `AuthStore.Store.Register` | frontend/src/store/authStore.ts:52-70 | as `Settle` with the fallback "Registration failed", after the begin step |
| `AuthStore.Store.HandleOAuthCallback` | frontend/src/store/authStore.ts:77-95 | as `Settle` with the fallback "OAuth authentication failed", after the begin step |
| `AuthStore.Store.Logout` | frontend/src/store/authStore.ts:97-105 | user and token become null, the user is signed out, the error is cleared, and loading is untouched |
| `AuthStore.Store.ClearError` | frontend/src/store/authStore.ts:107-109 | only the error changes, to null |
| `AuthStore.Store.SetLoading` | frontend/src/store/authStore.ts:111-113 | only the loading flag changes |
| `OAuthService.FindFirst` | backend/src/services/oauthService.js:14-17 | it returns the first index whose user matches, or none when no user matches |
| `OAuthService.FirstPhoto` | backend/src/services/oauthService.js:30 | there is an avatar exactly when the profile has a photo, and it is the first photo |
| `OAuthService.DisplayName` | backend/src/services/oauthService.js:39 | the display name when it is non-empty, else the username |
| `OAuthService.LinkAccount` | backend/src/services/oauthService.js:28-31 | the linked user gets provider, id, avatar and `emailVerified = true`, and keeps email, name and every other field |
| `OAuthService.NewUser` | backend/src/services/oauthService.js:37-44 | the new user has the profile's first email, `displayName \|\| username`, the provider identity, the avatar and `emailVerified = true` |
| `OAuthService.FindOrCreate` | backend/src/services/oauthService.js:11-52 | in every branch the returned user has the provider and profile id and is in the table; the table grows by at most one; it fails only when no identity match exists and the profile has no email |
| `OAuthService.FoundByIdentity` | backend/src/services/oauthService.js:14-21 | when a user with the identity exists, the first one is returned and the table is unchanged |
| `OAuthService.LinksByEmail` | backend/src/services/oauthService.js:24-34 | otherwise the first user with the email is linked in place; no user is added and no other user changes |
| `OAuthService.CreatesNewUser` | backend/src/services/oauthService.js:37-47 | otherwise exactly one new user built from the profile is appended |
| `OAuthService.FindOrCreateIdempotent` | backend/src/services/oauthService.js:11-47 | a second sign-in with the same profile returns the same user and leaves the table as the first sign-in left it |
| `OAuthService.UserCollection.FindOrCreateUser` | backend/src/services/oauthService.js:11-52 | the in-place lookup, link or insert leaves the table and the result `FindOrCreate` gives; on a profile with no email it changes nothing |
| `OAuthService.UserCollection.HandleGoogleCallback` | backend/src/services/oauthService.js:55-57 | it delegates with the fixed provider "google" |
| `OAuthService.UserCollection.HandleGitHubCallback` | backend/src/services/oauthService.js:60-62 | it delegates with the fixed provider "github" |
| `OAuthService.CallbackUrl` | backend/src/services/oauthService.js:71 | the callback URL is the base URL followed by exactly `/api/auth/<provider>/callback` |
| `OAuthService.AuthUrl` | backend/src/services/oauthService.js:70 | the authorisation URL starts with the provider endpoint, then the client id, then `&redirect_uri=` and the callback URL, and ends with the provider's fixed tail (`&response_type=code&scope=email profile` or `&scope=user:email`), with nothing else in it |
| `OAuthService.GetOAuthUrls` | backend/src/services/oauthService.js:65-78 | each callback URL is `<base>/api/auth/<provider>/callback`, with base `BASE_URL`, or `http://localhost:5000` when that is unset or empty; each authorisation URL carries `redirect_uri=` followed by that callback URL |

## Left out

- The `console.error` logging in the catch blocks (`aiService.js:78`, `184` and `205`; `oauthService.js:49`) is left out. It is output only and changes no returned value or state.
- HTTP transport is not modelled. This covers `axios.post` to the upstream API, request headers, `res.setHeader`, and the client's `apiClient` calls. Each becomes an outcome parameter, or the frame log.
- The wire text of frames is not modelled. Each frame is a datatype value, because `JSON.stringify` is a foreign serialiser.
- `JSON.parse` is abstract. Its result is reduced to the fields the code reads, and a non-string field counts as missing.
- `AiService.Normalize`: a parsed `jsxCode` or `cssCode` that is a truthy non-string (a number or an object) is returned unchanged by the source. The model treats it as missing and falls back. This is weaker for such answers only.
- The literal system prompts are parameters, not modelled text. The two prompts differ: the non-streaming one adds an example answer.
- Upstream `'error'` events and client disconnects are not modelled. The code handles neither, and there is no cancellation.
- Event-loop interleaving is not modelled. Each store action runs its begin step and its settle step in one method, so another action cannot run during the `await`.
- Other callers on the response stream are not modelled. `StreamRelay.Relay.Start` takes a predicate `accepts` on the built message list, which says whether upstream accepts the streaming request; it stands in for the awaited `axios.post` promise.
- `apiClient.setAuthToken` and `apiClient.logout` are not part of this model. `frontend/src/lib/api` is not part of this model.
- `loginWithGoogle` is left out: it is browser navigation through `window.location`.
- `generateToken` is left out: it is JWT signing with a foreign library and a secret.
- The zustand `persist` storage backend and its rehydration are left out. Only `partialize` is modelled.
- Mongoose is reduced to an in-memory sequence. `findOne` returns the first match. A failing `save()` (validation, duplicate key) is not modelled. `backend/src/models/User` is not part of this model, so email matching is exact.
- Session, component and user records carry only the fields listed in their datatypes. `frontend/src/types` is not part of this model.
- A `Partial<Component>` field that is present but explicitly `undefined` is not modelled. It would override the field with `undefined`.

## Findings

| source | as written | input that shows it | evidently intended | confidence | as-written member | corrected member |
|---|---|---|---|---|---|---|
| backend/src/services/aiService.js:164-181 | the `'end'` handler writes the final `{jsxCode, cssCode, done: true}` frame and calls `res.end()` without checking whether the `[DONE]` branch (lines 144-147) has already ended the response; later `'data'` chunks are handled after the end as well | chunks `data: {"choices":[{"delta":{"content":"He"}}]}`, `data: {"choices":[{"delta":{"content":"llo"}}]}`, `data: [DONE]`, then the upstream end: the final frame for "Hello" is written after `res.end()` and never reaches the client | the client receives the final normalised frame however the stream finishes, and nothing is written after the response has ended; the corrected model writes the final frame just before `[DONE]` in the `'data'` handler, writes it in the `'end'` handler only while the response is open, and ignores chunks after the end | not executed | `StreamRelay.DoneThenEndWritesAfterEnd` | `StreamRelay.RunCheckedDeliversFinal` |
