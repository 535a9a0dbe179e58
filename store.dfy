/** The running server: the global `cfg` that `editConfig` overwrites and every
    other route reads, with one method per route. The process environment is
    read once, when the server is created. */
module Store {
  import opened Common
  import opened Settings
  import opened Routes
  import Sessions

  class MockServer {
    var cfg: Config
    /** The value of the environment variable `env`, fixed for the process. */
    const processEnv: string

    constructor (processEnv: string)
      ensures cfg == Defaults(processEnv) && this.processEnv == processEnv
    {
      this.processEnv := processEnv;
      cfg := Defaults(processEnv);
    }

    /** `getConfig` (GET /api/config): 200 with the stored record, unchanged. */
    method GetConfig() returns (r: Response)
      ensures r == Response(StatusOK, ConfigBody(cfg))
    {
      r := Response(StatusOK, ConfigBody(cfg));
    }

    /** `editConfig` (POST /api/config): a body that does not decode is answered
        with 400 and leaves the record as it was; a decoded body replaces the
        whole record and is echoed back with 200. */
    method EditConfig(body: Result<Config>) returns (r: Response)
      modifies this`cfg
      ensures (cfg, r) == Routes.EditConfig(old(cfg), body)
      ensures body.Err? ==> cfg == old(cfg) && r == Response(StatusBadRequest, ErrorBody(body.msg))
      ensures body.Ok? ==> cfg == body.value && r == Response(StatusOK, ConfigBody(body.value))
    {
      match body {
        case Err(msg) =>
          r := Response(StatusBadRequest, ErrorBody(msg));
        case Ok(newConfig) =>
          cfg := newConfig;
          r := Response(StatusOK, ConfigBody(newConfig));
      }
    }

    /** POST /api/server behind the auth gate, over the current record. */
    method Server(authorization: string, body: Result<ServerAndNotifyReq>) returns (o: Outcome)
      ensures o == Guarded(cfg, authorization, Routes.Server(cfg, processEnv, body))
    {
      var decision := Gate(cfg, authorization);
      if decision.Reject? {
        return Outcome(None, decision.response, None);
      }
      o := Routes.Server(cfg, processEnv, body);
    }

    /** POST /api/notify behind the auth gate, over the current record. */
    method Notify(authorization: string, body: Result<ServerAndNotifyReq>) returns (o: Outcome)
      ensures o == Guarded(cfg, authorization, Routes.Notify(cfg, processEnv, body))
    {
      var decision := Gate(cfg, authorization);
      if decision.Reject? {
        return Outcome(None, decision.response, None);
      }
      o := Routes.Notify(cfg, processEnv, body);
    }

    /** GET /api/zonelist behind the auth gate, over the current record. */
    method Zonelist(authorization: string) returns (o: Outcome)
      ensures o == Guarded(cfg, authorization, Routes.Zonelist(cfg))
    {
      var decision := Gate(cfg, authorization);
      if decision.Reject? {
        return Outcome(None, decision.response, None);
      }
      o := Routes.Zonelist(cfg);
    }

    /** One request to whichever route it names: the record afterwards and the
        outcome are those of `Sessions.Step`, so every lemma about sessions
        holds of a server handling requests one after another. */
    method Handle(req: Sessions.Request) returns (o: Outcome)
      modifies this`cfg
      ensures (cfg, o) == Sessions.Step(old(cfg), processEnv, req)
    {
      match req {
        case GetConfigReq =>
          var r := GetConfig();
          o := Outcome(None, r, None);
        case EditConfigReq(body) =>
          var r := EditConfig(body);
          o := Outcome(None, r, None);
        case ServerReq(authorization, body) =>
          o := Server(authorization, body);
        case NotifyReq(authorization, body) =>
          o := Notify(authorization, body);
        case ZonelistReq(authorization) =>
          o := Zonelist(authorization);
      }
    }
  }

  /** A client of the server: a new token takes effect for the very next
      protected request, the old one is refused from then on, and a later
      malformed edit leaves the new record in place. */
  method TokenRotation(processEnv: string, next: Config, body: ServerAndNotifyReq)
    requires next.apiToken != DefaultApiToken
  {
    var s := new MockServer(processEnv);
    var before := s.Zonelist(DefaultApiToken);
    assert before.response == Response(StatusOK, StatusBody("ok", StatusOK));
    var edited := s.EditConfig(Ok(next));
    assert edited == Response(StatusOK, ConfigBody(next));
    var stale := s.Server(DefaultApiToken, Ok(body));
    assert stale.response.status == StatusUnauthorized && stale.callback.None?;
    var current := s.Server(next.apiToken, Ok(body));
    assert current == Routes.Server(next, processEnv, Ok(body));
    var rejected := s.EditConfig(Err("invalid character"));
    assert rejected.status == StatusBadRequest;
    var read := s.GetConfig();
    assert read == Response(StatusOK, ConfigBody(next));
  }
}
