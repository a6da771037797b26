# Session API over a Redis cache — a verified model

The system is a small Go HTTP service (`api/main.go`). A user logs in with a
name and password from a fixed table (`users_db`). The server then mints a
random session ID and stores `ID → user name` in Redis with `SETEX` and a
120-second TTL. It answers 201 with the ID, the expiration (`now + 120`) and
the host name. `Profile` greets the user behind a live ID. `Refresh` reads the
user behind an old ID, issues a new session for that user through
`ResponseSession`, and then `DEL`s the old ID.

This project models that session lifecycle in Dafny:

- `options.dfy`: module `Options`, the optional value used for nil replies and failing calls.
- `env.dfy`: module `Env`, `getEnv`, with the environment as a map.
- `users.dfy`: module `Users`, the `users_db` table and the password check.
- `cache.dfy`: module `Cache`, the Redis cache as a map from ID to (user, absolute expiry). `GET` treats `now >= expiry` as absent. `SETEX` and `DEL` are also here.
- `http.dfy`: module `Http`, status codes, replies, `ResponseMessage`, and a parser that is its inverse.
- `handlers.dfy`: module `Handlers`, `ResponseSession`, `Login`, `Profile` and `Refresh` as step functions. Each maps the cache, the clock and everything the handler learns from outside (HTTP method, header, decoded body, the store's success or failure, the minted UUID, the host name) to the new cache and the replies written, in order.
- `properties.dfy`: module `HandlerProperties`, what each handler promises for one request.
- `lifecycle.dfy`: module `Lifecycle`, any sequence of requests and clock ticks, with the invariants that hold across all of them.
- `api.dfy`: module `Api`, class `SessionApi`, which owns the cache and the clock. Its handler methods follow the Go code statement by statement and are proved equal to the step functions.
- `findings.dfy`: module `Findings`, two defects of `Refresh` and a corrected rotation.
- `scenarios.dfy`: module `Scenarios`, concrete request sequences.

The code and the design description of this service disagree in three places. The model follows the code:

- The design calls rotation fail-safe: the old ID is deleted only after the new session exists. The code deletes the old ID even when issuing the new one failed. See Findings.
- The design reports a failing `DEL` as success. The code writes a second reply, a 500, after the 201. See Findings.
- The design gives "absent" and "expired" one message. The code does the same within each handler. But `Profile` says "You need to login to get a SessionID" and `Refresh` says "SessionID expired, please login".

## Model

| member | source | states |
|---|---|---|
| `Env.GetEnv` | api/main.go:213-219 | the default is returned when the variable is unset or empty, otherwise the value unchanged; the result is empty only if both are |
| `Users.Verify` | api/main.go:79-86 | true exactly for a (user, password) pair of `users_db`; an unknown user and a wrong password are both false; empty fields never pass |
| `Cache.Lookup` | api/main.go:107-117 | `GET` yields the user exactly when the key is present and `now < expiry`; never-existed, deleted and expired are one answer |
| `Cache.Setex` | api/main.go:191-192 | after `SETEX key ttl v` the key reads `v` for exactly the `ttl` seconds from now and absent from then on; no other key changes |
| `Cache.Del` | api/main.go:153-154 | after `DEL` the key reads absent at every time; no other key changes; deleting an absent key changes nothing |
| `Http.ParseMessageBody` | api/main.go:165-170 | the left inverse of the concatenation: it recovers a message by stripping the fixed prefix and suffix, and whatever it extracts rebuilds the text exactly; it is not a JSON reader |
| `Http.MessageBodyRoundTrip` | api/main.go:168 | stripping the fixed prefix and suffix from the body `ResponseMessage` builds gives back the message; the body is JSON only when the message is `JsonSafe` (`Lifecycle.SafeMessageIsWellFormed`) |
| `Http.ResponseMessage` | api/main.go:165-170 | the reply has the given status and a text body from which stripping the fixed prefix and suffix recovers exactly the given message (valid JSON only for a `JsonSafe` message) |
| `Handlers.SessionStep` | api/main.go:172-210 | one reply; 201 exactly when UUID, `SETEX` and encoding all succeed, else the generic 500; the session sent is live for the user exactly until the expiration it states, `now + 120`; the cache changes only under the minted ID and only after `SETEX` succeeded |
| `Handlers.LoginStep` | api/main.go:64-91 | one reply; a 201 or any cache write only for a POST whose credentials match `users_db`; only the minted ID can change |
| `Handlers.ProfileStep` | api/main.go:93-121 | never changes the cache (so never slides an expiry); one reply |
| `Handlers.RefreshStep` | api/main.go:124-160 | one or two replies, two only when `DEL` failed and then the second is a 500; only the presented and the minted IDs can change |
| `HandlerProperties.LoginRejectsBadRequest` | api/main.go:66-77 | a non-POST is 400 "Wrong HTTP method", an undecodable body 400 "Bad JSON body", and the cache is unchanged |
| `HandlerProperties.LoginRejectsWrongCredentials` | api/main.go:79-86 | any credentials not in `users_db` give the same outcome: 401 "Wrong user or password" and no cache write |
| `HandlerProperties.LoginIssuesSession` | api/main.go:172-210 | matching credentials and working collaborators add exactly one entry, fresh ID to user until `now + 120`, and answer 201 with that ID and expiration |
| `HandlerProperties.ProfileAnswers` | api/main.go:93-121 | 400 exactly for a non-GET; 200 "Hi u!" exactly when the ID is non-empty, `GET` works and the ID maps live to `u`; 401 exactly for an empty, absent or expired ID; 500 exactly on a store error |
| `HandlerProperties.RefreshRejects` | api/main.go:124-148 | wrong method 400, empty header 401, `GET` error 500, absent or expired ID 401; each leaves the cache unchanged |
| `HandlerProperties.RefreshRotates` | api/main.go:150-159 | a successful refresh of live `old` for `u` with a fresh `n`: `n != old`, `n` maps to `u` for a full new TTL, `old` is absent at every time, no other key changes, one 201 reply |
| `HandlerProperties.IssueThenValidate` | api/main.go:174-192 | the ID from a successful login greets the same user at every second before the expiration it came with and is refused from that second on |
| `HandlerProperties.RotateThenValidate` | api/main.go:150-159 | after a successful refresh the old ID is refused and the new one greets the same user |
| `Lifecycle.Step` | api/main.go:55-57 | a request is routed to its handler; the model's clock never goes back (an assumption, see Left out) |
| `Lifecycle.Run` | api/main.go:55-60 | after any sequence of events the clock is not behind where it started |
| `Lifecycle.StepPreservesInv` | api/main.go:80-89 | one request or tick keeps the cache holding only `users_db` names, none expiring more than 120 s ahead |
| `Lifecycle.RunPreservesInv` | api/main.go:139-151 | the same over any sequence: `Refresh` only re-stores a user read back from the cache |
| `Lifecycle.StepKeepsEntries` | api/main.go:183-192 | one request never rewrites an ID used before: old keys are kept as they were or deleted; the only new key is the minted one |
| `Lifecycle.RunKeepsEntries` | api/main.go:183-192 | along any sequence with fresh IDs, a known key still present at the end holds its original user and expiry |
| `Lifecycle.NeverResurrected` | api/main.go:106-117 | an ID that is deleted or expired never validates again, whatever requests follow |
| `Lifecycle.ExpiresOnTime` | api/main.go:191-192 | a live session stays bound to its user and lapses at its original expiry; no request extends it |
| `Lifecycle.UsersAreJsonSafe` | api/main.go:16-20 | no user name of `users_db` needs escaping in JSON |
| `Lifecycle.RejectionMessagesAreWellFormed` | api/main.go:67-129 | the 400 and 401 login bodies and `Refresh`'s hand-written "Bad method" body are well-formed JSON |
| `Lifecycle.LoginRequiredIsWellFormed` | api/main.go:102 | the "login required" body is well-formed JSON |
| `Lifecycle.FailureMessagesAreWellFormed` | api/main.go:141-146 | the "expired" and "Internal Server Error" bodies are well-formed JSON |
| `Lifecycle.GreetingIsWellFormed` | api/main.go:119-120 | the greeting for any user of `users_db` is well-formed JSON |
| `Lifecycle.RepliesAreWellFormed` | api/main.go:165-170 | while the cache holds only `users_db` names, every message body any handler writes is well-formed JSON, although `ResponseMessage` escapes nothing |
| `Api.SessionApi.constructor` | api/main.go:38-53 | a server starts against whatever the cache already holds, provided it holds only `users_db` names for at most one TTL ahead |
| `Api.SessionApi.Advance` | api/main.go:174 | time passes; the cache is unchanged and the invariant holds |
| `Api.SessionApi.ResponseSession` | api/main.go:172-210 | the in-place handler equals `Handlers.SessionStep` and keeps the cache invariant |
| `Api.SessionApi.Login` | api/main.go:64-91 | the in-place handler equals `Handlers.LoginStep` and keeps the cache invariant |
| `Api.SessionApi.Profile` | api/main.go:93-121 | modifies nothing; equals `Handlers.ProfileStep`; a 200 greeting exactly when the ID maps live to its user |
| `Api.SessionApi.Refresh` | api/main.go:124-160 | the in-place handler equals `Handlers.RefreshStep` and keeps the cache invariant |
| `Findings.RefreshLosesSessionOnFailedIssue` | api/main.go:150-159 | as written, when issuing fails at any step the old ID is still deleted and the client holds no session |
| `Findings.RefreshRepliesTwiceOnFailedDel` | api/main.go:151-158 | as written, a failing `DEL` writes a 500 after the 201 |
| `Findings.RefreshFailSafeStep` | api/main.go:124-160 | the corrected rotation writes one reply and deletes the old ID only after answering 201 |
| `Findings.FailSafeRefreshKeepsSession` | api/main.go:150-159 | after the corrected rotation the client always holds a live session for the same user; the old ID stays valid whenever the answer was not 201 |
| `Findings.FailSafeRefreshToleratesFailedDel` | api/main.go:154-158 | with a working issue and a failing `DEL`, the corrected rotation writes the single 201 and the old ID stays live for the same user |
| `Scenarios.HugoLogsInAndIsGreeted` | api/main.go:64-121 | Hugo/Hugo123 gets a 201 session expiring at `now + 120`; `Profile` then answers `{"message": "Hi Hugo!"}` |
| `Scenarios.WrongPasswordIsRefused` | api/main.go:83-85 | Hugo with a wrong password gets a 401 and nothing is stored |
| `Scenarios.EmptyHeaderIsRefused` | api/main.go:100-103 | an empty `SessionID` header gets a 401 whatever the cache would do |
| `Scenarios.RefreshMovesPacoToNewId` | api/main.go:124-160 | after a refresh the new ID greets Paco and the old one is refused |
| `Scenarios.WrongMethodsAreRefused` | api/main.go:95-131 | `Profile` by POST and `Refresh` by GET are both 400 |

## Findings

| source | as written | input that shows it | evidently intended | confidence | as-written member | corrected member |
|---|---|---|---|---|---|---|
| api/main.go:150-159 | `Refresh` calls `ResponseSession`, which reports nothing back, then `DEL`s the old ID unconditionally | a live old ID, then `SETEX` of the new ID fails (or the UUID or encoding fails) and `DEL` succeeds: reply 500, old ID deleted, no new ID sent | delete the old ID only once the new session has been issued and sent, so the user never ends with no session | medium, not executed | `Findings.RefreshLosesSessionOnFailedIssue` | `Findings.FailSafeRefreshKeepsSession` |
| api/main.go:154-158 | a failing `DEL` writes a 500 reply after the 201 already written by `ResponseSession` | a live old ID, a fully successful issue, then `DEL` fails: replies 201 then 500 | report the rotation as a success (the new session is valid) and let the old ID lapse at its own expiry | medium, not executed | `Findings.RefreshRepliesTwiceOnFailedDel` | `Findings.RefreshFailSafeStep` |

## Left out

- `main` (api/main.go:42-61): reading the environment, dialing Redis, registering routes and `ListenAndServe` are process bootstrap and network I/O. `Lifecycle.Step` stands in for the routing.
- The Redis connection itself: the cache is a map, and each call's error is an input (`getOk`, `setexOk`, `delOk`). A failing `SETEX` or `DEL` is taken to leave the cache unchanged.
- JSON decoding of the login body is an input (`None` when it fails; a missing field decodes to ""). The encoder `json.Marshal` is not modelled: a 201 body is the `Session` value, and encoder failure is an input (`marshalOk`).
- `uuid.NewV4` (a random version-4 UUID, section 4.4 of RFC 4122) is an input, `None` when it fails. Freshness is not a precondition of the handlers, because their contracts hold without it. The lemmas that need it (exactly one new entry, `n != old`, no ID reassigned) take it as a hypothesis. Collision probability cannot be verified.
- `os.Hostname` and `time.Now` are inputs. One integer clock, in seconds, serves both the API process and Redis: sub-second truncation by `Unix()` and clock skew between the two are not modelled.
- Redis evicting expired keys on its own is not modelled as a change to the map: expired entries stay in the map, and every read treats them as absent.
- `Api.SessionApi.constructor`: the cache is assumed to be written only by this service, with the 120-second TTL. `main` connects to whatever Redis the environment names and never clears it. Leftover sessions of an earlier run are admitted. A Redis shared with other writers, or entries from a build with another TTL, fall outside the invariant `Lifecycle.Inv`. `Lifecycle.RepliesAreWellFormed` and the cache invariant kept by the handler methods do not hold for such entries: a stored name containing `"` makes the `Profile` greeting invalid JSON.
- The `Content-Type: application/json` header that every reply sets is not modelled. A reply is a status code and a body.
- The clock only moves forward (`Lifecycle.Advance` takes a `nat`). This is an assumption of the model, not behaviour of the source: `time.Now()` and Redis's expiry follow the wall clock, which can step back. `Lifecycle.NeverResurrected` and `Lifecycle.ExpiresOnTime` rely on it.
- `fmt.Println` logging.
- What Go's `ResponseWriter` does with a second `WriteHeader` (the 500 written after a 201): the model records the sequence of replies only.
- Two concurrent `Refresh` calls on one ID can both succeed. The model is sequential and cannot express that race.
- `fmt.Sprintf("%s", redisResponse)` is taken as the stored user name unchanged.
