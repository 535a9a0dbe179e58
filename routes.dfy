/** The per-request decisions of the server: the auth gate, the three
    simulated-response handlers, the callback they may emit, the callback URL
    and the configuration edit. Each is a function of one configuration
    snapshot and the already-decoded request. */
module Routes {
  import opened Common
  import opened Settings

  /** A JSON response body. */
  datatype Body =
    | ErrorBody(error: string)                    // {"error": <text>}
    | StatusBody(message: string, status: Int64)  // {"message": <text>, "status": <code>}
    | ConfigBody(config: Config)                  // the configuration record itself

  datatype Response = Response(status: Int64, body: Body)

  /** The body `serverAndNotifyReq` of `/api/server` and `/api/notify`. */
  datatype ServerAndNotifyReq = ServerAndNotifyReq(
    actionId: string,
    serverUsers: Int64,
    serverId: Int64,
    newServerNames: seq<string>,
    callbackToken: string)

  /** The payload `serverAndNotifyCallbackReq` posted to the platform. */
  datatype CallbackReq = CallbackReq(
    appId: string,
    callbackToken: string,
    actionId: string,
    success: bool,
    message: string)

  /** One callback POST: where it goes and what it carries. */
  datatype Callback = Callback(url: string, payload: CallbackReq)

  /** What one request does: the argument of `time.Sleep` in seconds (None when
      the handler returns before sleeping), the response, and the callback the
      handler hands to its goroutine, if any. */
  datatype Outcome = Outcome(sleep: Option<Int64>, response: Response, callback: Option<Callback>)

  const ProdCallbackUrl: string := "https://game-cloud.g123.jp/cp/api/v1/new_server/callback"
  const StagingServerCallbackUrl: string := "https://game-cloud.stg.g123.jp/cp/api/v1/open_server/callback"
  const StagingNotifyCallbackUrl: string := "https://game-cloud.stg.g123.jp/cp/api/v1/new_server/callback"

  const NanosPerSecond: int := 1_000_000_000
  /** The largest sleep in seconds whose nanosecond count fits in 64 bits. */
  const MaxSleepSeconds: int := MaxInt64 / NanosPerSecond

  /** `part` occurs in `s` as a contiguous piece. */
  predicate Contains(s: string, part: string)
  {
    exists i :: 0 <= i <= |s| && OccursAt(s, part, i)
  }

  predicate OccursAt(s: string, part: string, i: int)
  {
    0 <= i <= |s| - |part| && s[i..i + |part|] == part
  }

  // ---------------------------------------------------------------- auth gate

  function UnauthorizedMessage(expected: string, got: string): string
  {
    "expected authorization token to be " + expected + " got " + got
  }

  /** The 401 text names both the token the server expects and the one it got. */
  lemma UnauthorizedMessageNamesBoth(expected: string, got: string)
    ensures Contains(UnauthorizedMessage(expected, got), expected)
    ensures Contains(UnauthorizedMessage(expected, got), got)
  {
    var prefix := "expected authorization token to be ";
    var s := UnauthorizedMessage(expected, got);
    var i := |prefix|;
    assert OccursAt(s, expected, i);
    var j := |prefix| + |expected| + |" got "|;
    assert OccursAt(s, got, j);
  }

  datatype GateDecision = Admit | Reject(response: Response)

  /** `authRequired`: admits a request only when its Authorization header
      (empty when absent) is exactly the configured token. */
  function Gate(cfg: Config, authorization: string): (d: GateDecision)
    ensures d.Admit? <==> authorization == cfg.apiToken
    ensures d.Reject? ==> d.response.status == StatusUnauthorized && d.response.body.ErrorBody?
    ensures d.Reject? ==>
      Contains(d.response.body.error, cfg.apiToken) && Contains(d.response.body.error, authorization)
  {
    if authorization != cfg.apiToken then
      UnauthorizedMessageNamesBoth(cfg.apiToken, authorization);
      Reject(Response(StatusUnauthorized, ErrorBody(UnauthorizedMessage(cfg.apiToken, authorization))))
    else
      Admit
  }

  /** A protected route: the gate first, the handler's outcome only if admitted;
      a rejected request neither sleeps nor emits a callback. */
  function Guarded(cfg: Config, authorization: string, handled: Outcome): (o: Outcome)
    ensures authorization == cfg.apiToken ==> o == handled
    ensures authorization != cfg.apiToken ==>
      o.sleep.None? && o.callback.None? && o.response == Gate(cfg, authorization).response
  {
    match Gate(cfg, authorization)
    case Admit => handled
    case Reject(response) => Outcome(None, response, None)
  }

  // ------------------------------------------------------------ callback URLs

  /** `getServerCallbackUrl`: production URL exactly when the process
      environment variable `env` is "prod", the staging open-server URL otherwise. */
  function ServerCallbackUrl(processEnv: string): (url: string)
    ensures url == ProdCallbackUrl <==> processEnv == "prod"
    ensures processEnv != "prod" ==> url == StagingServerCallbackUrl
  {
    if processEnv == "prod" then ProdCallbackUrl else StagingServerCallbackUrl
  }

  /** `getNotifyCallbackUrl`: never called by any handler. */
  function NotifyCallbackUrl(processEnv: string): (url: string)
    ensures processEnv == "prod" ==> url == ProdCallbackUrl
    ensures processEnv != "prod" ==> url == StagingNotifyCallbackUrl
  {
    if processEnv == "prod" then ProdCallbackUrl else StagingNotifyCallbackUrl
  }

  /** The two resolvers agree only in production: outside it, the URL notify
      actually uses differs from the notify-specific one. */
  lemma ResolversDifferOutsideProd(processEnv: string)
    ensures ServerCallbackUrl(processEnv) == NotifyCallbackUrl(processEnv) <==> processEnv == "prod"
  {
    if processEnv != "prod" {
      assert StagingServerCallbackUrl[41] != StagingNotifyCallbackUrl[41];
    }
  }

  // -------------------------------------------------------------- sleeping

  /** How long `time.Sleep(time.Duration(seconds) * time.Second)` pauses, in
      nanoseconds: the product wraps in 64 bits, and a non-positive duration
      does not pause at all. Within the 64-bit range of nanoseconds the pause
      is the configured number of seconds, or none for a negative setting. */
  function PauseNanos(seconds: Int64): (d: nat)
    ensures 0 <= seconds as int <= MaxSleepSeconds ==> d == seconds as int * NanosPerSecond
    ensures -MaxSleepSeconds <= seconds as int <= 0 ==> d == 0
    ensures d <= MaxInt64
  {
    var duration := Wrap64(seconds as int * NanosPerSecond);
    if duration <= 0 then 0 else duration as nat
  }

  /** A sleep one second past the 64-bit range wraps to a negative duration and
      does not pause. */
  lemma OversizedSleepDoesNotPause()
    ensures PauseNanos((MaxSleepSeconds + 1) as Int64) == 0
  {
    var x := (MaxSleepSeconds + 1) * NanosPerSecond;
    assert x == 9_223_372_037_000_000_000;
    assert Wrap64(x) as int == x - 0x1_0000_0000_0000_0000;
  }

  // ---------------------------------------------------------- configuration

  /** `editConfig`: a body that does not decode is answered with 400 and the
      decoder's text, and the record stays as it was; a decoded body replaces
      the whole record, with no field carried over, and is echoed with 200. */
  function EditConfig(cfg: Config, body: Result<Config>): (r: (Config, Response))
    ensures body.Err? ==> r.0 == cfg && r.1 == Response(StatusBadRequest, ErrorBody(body.msg))
    ensures body.Ok? ==> r.0 == body.value && r.1 == Response(StatusOK, ConfigBody(r.0))
  {
    match body
    case Err(msg) => (cfg, Response(StatusBadRequest, ErrorBody(msg)))
    case Ok(newConfig) => (newConfig, Response(StatusOK, ConfigBody(newConfig)))
  }

  // -------------------------------------------------------------- handlers

  /** The goroutine's decision: a callback to `url` exactly when the route's
      status is 202, carrying the fixed app id, the request's token and action
      id, and the route's configured success flag and message. */
  function CallbackFor(status: Int64, success: bool, message: string, req: ServerAndNotifyReq, url: string)
    : (c: Option<Callback>)
    ensures c.Some? <==> status == StatusAccepted
    ensures c.Some? ==> c.value.url == url && c.value.payload.appId == AppId
    ensures c.Some? ==>
      c.value.payload.callbackToken == req.callbackToken && c.value.payload.actionId == req.actionId
    ensures c.Some? ==> c.value.payload.success == success && c.value.payload.message == message
  {
    if status != StatusAccepted then None
    else Some(Callback(url, CallbackReq(AppId, req.callbackToken, req.actionId, success, message)))
  }

  /** The shared shape of `server` and `notify`, over one route's settings. */
  function CallbackRoute(status: Int64, sleep: Int64, success: bool, message: string,
                         body: Result<ServerAndNotifyReq>, url: string): Outcome
  {
    match body
    case Err(msg) => Outcome(None, Response(StatusBadRequest, ErrorBody(msg)), None)
    case Ok(req) =>
      Outcome(Some(sleep), Response(status, StatusBody("ok", status)),
              CallbackFor(status, success, message, req, url))
  }

  /** `server` (POST /api/server). */
  function Server(cfg: Config, processEnv: string, body: Result<ServerAndNotifyReq>): (o: Outcome)
    ensures body.Err? ==> o == Outcome(None, Response(StatusBadRequest, ErrorBody(body.msg)), None)
    ensures body.Ok? ==> o.sleep == Some(cfg.openServerStatusSleep)
    ensures body.Ok? ==> o.response == Response(cfg.openServerStatus, StatusBody("ok", cfg.openServerStatus))
    ensures o.callback.Some? <==> body.Ok? && cfg.openServerStatus == StatusAccepted
    ensures o.callback.Some? ==> o.callback.value == Callback(ServerCallbackUrl(processEnv),
      CallbackReq(AppId, body.value.callbackToken, body.value.actionId,
                  cfg.openServerCallbackSuccess, cfg.openServerCallbackMessage))
  {
    CallbackRoute(cfg.openServerStatus, cfg.openServerStatusSleep, cfg.openServerCallbackSuccess,
                  cfg.openServerCallbackMessage, body, ServerCallbackUrl(processEnv))
  }

  /** `notify` (POST /api/notify): like `server` over the notify settings, and
      it too posts to the open-server callback URL. */
  function Notify(cfg: Config, processEnv: string, body: Result<ServerAndNotifyReq>): (o: Outcome)
    ensures body.Err? ==> o == Outcome(None, Response(StatusBadRequest, ErrorBody(body.msg)), None)
    ensures body.Ok? ==> o.sleep == Some(cfg.notifyStatusSleep)
    ensures body.Ok? ==> o.response == Response(cfg.notifyStatus, StatusBody("ok", cfg.notifyStatus))
    ensures o.callback.Some? <==> body.Ok? && cfg.notifyStatus == StatusAccepted
    ensures o.callback.Some? ==> o.callback.value == Callback(ServerCallbackUrl(processEnv),
      CallbackReq(AppId, body.value.callbackToken, body.value.actionId,
                  cfg.notifyCallbackSuccess, cfg.notifyCallbackMessage))
  {
    CallbackRoute(cfg.notifyStatus, cfg.notifyStatusSleep, cfg.notifyCallbackSuccess,
                  cfg.notifyCallbackMessage, body, ServerCallbackUrl(processEnv))
  }

  /** `zonelist` (GET /api/zonelist): sleeps, answers its configured status,
      and never emits a callback whatever that status is. */
  function Zonelist(cfg: Config): (o: Outcome)
    ensures o.sleep == Some(cfg.zonelistStatusSleep)
    ensures o.response.status == cfg.zonelistStatus
    ensures o.response.body == StatusBody("ok", o.response.status)
    ensures o.callback.None?
  {
    Outcome(Some(cfg.zonelistStatusSleep), Response(cfg.zonelistStatus, StatusBody("ok", cfg.zonelistStatus)), None)
  }
}
