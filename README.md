# Mock game-platform server: a Dafny model of its request decisions

The server is an HTTP test double for a game platform's server-provisioning
API. One configuration record decides, per route, which HTTP status the route
answers, how many seconds it sleeps first and, for the two callback routes,
what the asynchronous callback to the platform reports. An admin route reads
the record and replaces it wholesale. The three simulated routes sit behind an
auth gate that compares the `Authorization` header with the record's token.

The model has five modules:

- `Common`: Go's 64-bit `int` as `Int64`, 64-bit wrap-around, and `Option` and `Result`. A `Result` is the outcome of decoding a JSON body: the value, or the decoder's error text.
- `Settings`: the `config` record, the start-up defaults and the constants (app id, default token, status codes).
- `Routes`: the per-request decisions, as pure functions of one record and one decoded request. These are the auth gate and its 401 message, `server`, `notify` and `zonelist`, the callback record and its URL, the configuration edit, and the `time.Sleep` duration arithmetic.
- `Store`: the class `MockServer`. It holds the mutable record `cfg` that `editConfig` overwrites, with one method per route, a `Handle` method that dispatches any request as `Sessions.Step` does, and a client method that rotates the token.
- `Sessions`: the server answering a sequence of requests, each over the record the earlier ones left. It holds the properties that relate several requests: only a decoded edit changes the record, the last edit wins, a new token takes effect on the next request, and callbacks are emitted exactly under status 202 and always to the URL the process environment selects.

Two quirks of the source are kept as written:

- `notify` posts to `getServerCallbackUrl()` (main.go:179). `getNotifyCallbackUrl` (main.go:199-204) is never called. `Sessions.AcceptedNotifyScenario` and `Routes.ResolversDifferOutsideProd` show this.
- The callback URL depends on the process environment variable `env` (main.go:193), not on the record's `env` field. So editing `env` does not change the callback URL (`Sessions.EditedEnvIsIgnored`). A later read of the record still returns the edited `env`.

## Model

| member | source | states |
|---|---|---|
| Routes.Gate | main.go:80-92 | a request is admitted iff its Authorization header (empty when absent) equals the configured token exactly; otherwise 401 with an error body naming both the expected and the received token |
| Routes.UnauthorizedMessageNamesBoth | main.go:85 | the 401 text contains the expected token and the received token |
| Routes.Guarded | main.go:69-75 | behind the gate, an admitted request gets the handler's outcome unchanged; a refused one gets the gate's 401, no sleep and no callback, so the handler does not run |
| Routes.EditConfig | main.go:98-107 | an undecodable body answers 400 with the decoder's text and keeps the record; a decoded body becomes the whole new record and is echoed with 200 |
| Routes.CallbackFor | main.go:139-149 | a callback exists iff the route status is 202; its payload has app id "gamedemo", the request's callbackToken and actionId, and the route's configured success flag and message |
| Routes.Server | main.go:125-152 | undecodable body: 400 with the error, no sleep, no callback; otherwise sleep openServerStatusSleep, answer openServerStatus with {"message":"ok","status":openServerStatus}, and a callback to the open-server URL iff that status is 202, with the payload fields' stated sources |
| Routes.Notify | main.go:154-181 | the same over the notify fields, and the callback also goes to the open-server URL |
| Routes.Zonelist | main.go:183-190 | sleeps zonelistStatusSleep, answers zonelistStatus with the ok body, never emits a callback |
| Routes.ServerCallbackUrl | main.go:192-197 | the production URL iff the environment value is "prod", the staging open-server URL otherwise |
| Routes.NotifyCallbackUrl | main.go:199-204 | the production URL for "prod", the staging new-server URL otherwise |
| Routes.ResolversDifferOutsideProd | main.go:192-204 | the resolver notify uses and the unused notify resolver agree iff the environment is "prod" |
| Routes.PauseNanos | main.go:132 | the pause time.Sleep makes is the configured seconds times 10^9 nanoseconds up to 9223372036 seconds, none for a setting between -9223372036 and 0 seconds, and never beyond the 64-bit range |
| Routes.OversizedSleepDoesNotPause | main.go:184 | a sleep setting one second past the 64-bit nanosecond range wraps negative and does not pause |
| Store.MockServer.constructor | main.go:20-33 | the process starts with the default record and a fixed process environment |
| Store.MockServer.GetConfig | main.go:94-96 | answers 200 with the stored record and changes nothing |
| Store.MockServer.EditConfig | main.go:98-107 | on a decode error the stored record is unchanged and the answer is 400; on success the stored record is exactly the decoded one and is echoed with 200 |
| Store.MockServer.Server | main.go:125-152 | the gated open-server outcome over the current record |
| Store.MockServer.Notify | main.go:154-181 | the gated notify outcome over the current record |
| Store.MockServer.Zonelist | main.go:183-190 | the gated zonelist outcome over the current record |
| Store.MockServer.Handle | main.go:62-75 | one request to any route leaves the record and gives the outcome of Sessions.Step over the record before it, so the session lemmas hold of the server |
| Sessions.Step | main.go:62-75 | only a decoded edit changes the record, to the decoded value; a callback is emitted iff the request passes the gate with a decoded body while its route's status is 202; every callback goes to the process-environment URL |
| Sessions.Run | main.go:20-33 | answering a session of requests over the one global record yields exactly one outcome per request |
| Sessions.RunOutcomeAt | main.go:84 | the i-th request is answered over the record left by the i requests before it |
| Sessions.RecordSurvivesWithoutEdits | main.go:99-103 | a session without a decoded edit ends with the record it started with |
| Sessions.LastEditWins | main.go:105 | a session ends with exactly the record of its last decoded edit |
| Sessions.CallbackIffAccepted | main.go:140-142 | request i emits a callback iff it passes the gate, its body decodes and its route's status is 202 in the record then in force |
| Sessions.CallbacksUseProcessEnvironment | main.go:150 | every callback of every session goes to the URL the process environment selects |
| Sessions.EditedEnvIsIgnored | main.go:193 | editing env to "prod" outside production still sends callbacks to the staging URL |
| Sessions.NewTokenTakesEffect | main.go:84 | after a token edit, the new token admits the next request and the old one gets 401 with no sleep and no callback |
| Sessions.EditThenRead | main.go:94-107 | an edit answers 200 with the new record and a following read returns exactly it |
| Sessions.DefaultsAnswerOkWithoutCallback | main.go:20-33 | with the start-up record and token, zonelist, server and notify sleep 15 seconds, answer 200 {"message":"ok","status":200} and emit no callback |
| Sessions.AcceptedNotifyScenario | main.go:168-179 | notify at 202 with sleep 0 answers 202 at once and emits one callback {"gamedemo","t1","a1",true,"oops"} to the open-server URL |

## Left out

- Server start-up, routing and middleware are not modelled: `gin.New`, the logger, panic recovery, `/ping`, `/api/panik` and `r.Run` are framework wiring. `Sessions.Step` dispatches the five modelled routes directly.
- JSON decoding and encoding are not modelled. A decoded body is an abstract `Result` input, and a response is a datatype. Missing JSON fields take Go zero values inside the decoder, which is outside the model.
- `time.Sleep` does not pause anything in the model. An outcome records the seconds the handler passes to it. `Routes.PauseNanos` states how long that pause would be.
- Concurrent edits during a request are not modelled: each protected request is atomic over one snapshot of the record. The source reads the global record at separate moments, so a concurrent edit can land in between:
  - the gate reads the token (main.go:84);
  - the handler reads its sleep setting (main.go:132, 161, 184);
  - after the sleep, it reads the status again for the answer (main.go:134-136, 163-165, 186-188), so an edit during the default 15-second sleep changes the response;
  - the callback goroutine reads the status, success flag and message after the response is written (main.go:139-151, 168-180).
  The model does not capture these races.
- `sendCallback` is not modelled: its HTTP POST and its `log.Fatalf` on marshal or network failure are I/O and process exit. A handler only emits the callback record.
- `os.Getenv` is not modelled. The process environment is the fixed constructor parameter `processEnv`.
- A `Response(status, body)` stands for the arguments the handler passes to gin's `c.JSON`. What gin then writes is not modelled. Gin sends 200 for a status of zero or less, and sends no body for 1xx, 204 and 304.
- The request fields `serverUsers`, `serverId` and `newServerNames` are decoded but never read, so they appear only in the request datatype.
- Routes.PauseNanos: the contract pins the pause only for settings between -9223372036 and 9223372036 seconds. Beyond that range it states only the 64-bit bound, and the body gives the wrapped value.
