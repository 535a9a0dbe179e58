/** The server answering a sequence of requests one after another, each over
    the record left by the ones before it. */
module Sessions {
  import opened Common
  import opened Settings
  import opened Routes

  /** A request to one of the five modelled routes, already decoded. A missing
      Authorization header is the empty string. */
  datatype Request =
    | GetConfigReq
    | EditConfigReq(config: Result<Config>)
    | ServerReq(authorization: string, body: Result<ServerAndNotifyReq>)
    | NotifyReq(authorization: string, body: Result<ServerAndNotifyReq>)
    | ZonelistReq(authorization: string)

  /** The request replaces the stored record. */
  predicate Replaces(req: Request)
  {
    req.EditConfigReq? && req.config.Ok?
  }

  /** The request reaches a callback route's handler with a decoded body while
      that route is configured to answer 202. */
  predicate EmitsCallback(cfg: Config, req: Request)
  {
    match req
    case ServerReq(authorization, body) =>
      authorization == cfg.apiToken && body.Ok? && cfg.openServerStatus == StatusAccepted
    case NotifyReq(authorization, body) =>
      authorization == cfg.apiToken && body.Ok? && cfg.notifyStatus == StatusAccepted
    case _ => false
  }

  /** One request against record `cfg`: the record afterwards and what the
      request did. Only a decoded edit changes the record; a callback is
      emitted exactly when `EmitsCallback` holds, and always to the URL the
      process environment selects. */
  function Step(cfg: Config, processEnv: string, req: Request): (r: (Config, Outcome))
    ensures Replaces(req) ==> r.0 == req.config.value
    ensures !Replaces(req) ==> r.0 == cfg
    ensures r.1.callback.Some? <==> EmitsCallback(cfg, req)
    ensures r.1.callback.Some? ==> r.1.callback.value.url == ServerCallbackUrl(processEnv)
  {
    match req
    case GetConfigReq => (cfg, Outcome(None, Response(StatusOK, ConfigBody(cfg)), None))
    case EditConfigReq(body) =>
      var (next, response) := EditConfig(cfg, body);
      (next, Outcome(None, response, None))
    case ServerReq(authorization, body) => (cfg, Guarded(cfg, authorization, Server(cfg, processEnv, body)))
    case NotifyReq(authorization, body) => (cfg, Guarded(cfg, authorization, Notify(cfg, processEnv, body)))
    case ZonelistReq(authorization) => (cfg, Guarded(cfg, authorization, Zonelist(cfg)))
  }

  /** The requests in order: the final record and one outcome per request. */
  function Run(cfg: Config, processEnv: string, reqs: seq<Request>): (r: (Config, seq<Outcome>))
    ensures |r.1| == |reqs|
    decreases |reqs|
  {
    if reqs == [] then (cfg, [])
    else
      var (next, outcome) := Step(cfg, processEnv, reqs[0]);
      var (last, outcomes) := Run(next, processEnv, reqs[1..]);
      (last, [outcome] + outcomes)
  }

  /** Running `a` then `b` is running `b` over the record `a` leaves. */
  lemma {:induction false} RunSplit(cfg: Config, processEnv: string, a: seq<Request>, b: seq<Request>)
    ensures var mid := Run(cfg, processEnv, a);
      Run(cfg, processEnv, a + b) == (Run(mid.0, processEnv, b).0, mid.1 + Run(mid.0, processEnv, b).1)
    decreases |a|
  {
    if a == [] {
      assert a + b == b;
      var tail := Run(cfg, processEnv, b).1;
      assert Run(cfg, processEnv, a) == (cfg, []);
      assert [] + tail == tail;
    } else {
      var (next, outcome) := Step(cfg, processEnv, a[0]);
      assert (a + b)[0] == a[0] && (a + b)[1..] == a[1..] + b;
      RunSplit(next, processEnv, a[1..], b);
      var rest := Run(next, processEnv, a[1..]);
      assert Run(cfg, processEnv, a).1 == [outcome] + rest.1;
      assert ([outcome] + rest.1) + Run(rest.0, processEnv, b).1 == [outcome] + (rest.1 + Run(rest.0, processEnv, b).1);
    }
  }

  /** The i-th request is answered over the record left by the i requests
      before it. */
  lemma {:induction false} RunOutcomeAt(cfg: Config, processEnv: string, reqs: seq<Request>, i: nat)
    requires i < |reqs|
    ensures Run(cfg, processEnv, reqs).1[i] == Step(Run(cfg, processEnv, reqs[..i]).0, processEnv, reqs[i]).1
    decreases i
  {
    if i > 0 {
      var next := Step(cfg, processEnv, reqs[0]).0;
      RunOutcomeAt(next, processEnv, reqs[1..], i - 1);
      assert reqs[..i][0] == reqs[0];
      assert reqs[..i][1..] == reqs[1..][..i - 1];
    }
  }

  /** Without a decoded edit, the record at the end is the one at the start:
      reads, rejected edits, refused and admitted route requests change nothing. */
  lemma {:induction false} RecordSurvivesWithoutEdits(cfg: Config, processEnv: string, reqs: seq<Request>)
    requires forall i :: 0 <= i < |reqs| ==> !Replaces(reqs[i])
    ensures Run(cfg, processEnv, reqs).0 == cfg
    decreases |reqs|
  {
    if reqs != [] {
      assert !Replaces(reqs[0]);
      RecordSurvivesWithoutEdits(cfg, processEnv, reqs[1..]);
    }
  }

  /** The record at the end is the whole record of the last decoded edit. */
  lemma LastEditWins(cfg: Config, processEnv: string, before: seq<Request>, next: Config, after: seq<Request>)
    requires forall i :: 0 <= i < |after| ==> !Replaces(after[i])
    ensures Run(cfg, processEnv, before + [EditConfigReq(Ok(next))] + after).0 == next
  {
    var mid := Run(cfg, processEnv, before).0;
    RunSplit(cfg, processEnv, before + [EditConfigReq(Ok(next))], after);
    RunSplit(cfg, processEnv, before, [EditConfigReq(Ok(next))]);
    assert Run(mid, processEnv, [EditConfigReq(Ok(next))]).0 == next;
    RecordSurvivesWithoutEdits(next, processEnv, after);
  }

  /** A callback is emitted for the i-th request exactly when that request
      passes the gate with a decoded body while its route, in the record the
      earlier requests left, is configured to answer 202. */
  lemma CallbackIffAccepted(cfg: Config, processEnv: string, reqs: seq<Request>, i: nat)
    requires i < |reqs|
    ensures Run(cfg, processEnv, reqs).1[i].callback.Some?
        <==> EmitsCallback(Run(cfg, processEnv, reqs[..i]).0, reqs[i])
  {
    RunOutcomeAt(cfg, processEnv, reqs, i);
  }

  /** Every callback of a session goes to the URL the process environment
      selects, whatever `env` the records in force say. */
  lemma {:induction false} CallbacksUseProcessEnvironment(cfg: Config, processEnv: string, reqs: seq<Request>)
    ensures forall i :: 0 <= i < |reqs| && Run(cfg, processEnv, reqs).1[i].callback.Some? ==>
      Run(cfg, processEnv, reqs).1[i].callback.value.url == ServerCallbackUrl(processEnv)
    decreases |reqs|
  {
    if reqs != [] {
      var next := Step(cfg, processEnv, reqs[0]).0;
      CallbacksUseProcessEnvironment(next, processEnv, reqs[1..]);
      var outcomes := Run(cfg, processEnv, reqs).1;
      assert outcomes == [Step(cfg, processEnv, reqs[0]).1] + Run(next, processEnv, reqs[1..]).1;
      forall i | 0 <= i < |reqs| && outcomes[i].callback.Some?
        ensures outcomes[i].callback.value.url == ServerCallbackUrl(processEnv)
      {
        if i > 0 {
          assert outcomes[i] == Run(next, processEnv, reqs[1..]).1[i - 1];
        }
      }
    }
  }

  /** Setting `env` to "prod" through the edit route does not send callbacks to
      production while the process itself runs outside it. */
  lemma EditedEnvIsIgnored(cfg: Config, processEnv: string, next: Config, body: ServerAndNotifyReq)
    requires processEnv != "prod" && next.env == "prod"
    requires next.openServerStatus == StatusAccepted
    ensures var outcomes := Run(cfg, processEnv, [EditConfigReq(Ok(next)), ServerReq(next.apiToken, Ok(body))]).1;
      outcomes[1].callback.Some? && outcomes[1].callback.value.url == StagingServerCallbackUrl
  {
    var reqs := [EditConfigReq(Ok(next)), ServerReq(next.apiToken, Ok(body))];
    RunOutcomeAt(cfg, processEnv, reqs, 1);
    assert reqs[..1] == [EditConfigReq(Ok(next))];
  }

  /** A token set through the edit route admits the next protected request,
      and the token it replaced is refused with 401 and no callback. */
  lemma NewTokenTakesEffect(cfg: Config, processEnv: string, next: Config, body: ServerAndNotifyReq)
    requires cfg.apiToken != next.apiToken
    ensures var outcomes := Run(cfg, processEnv,
        [EditConfigReq(Ok(next)), ServerReq(next.apiToken, Ok(body)), ServerReq(cfg.apiToken, Ok(body))]).1;
      outcomes[1] == Server(next, processEnv, Ok(body))
      && outcomes[2].response.status == StatusUnauthorized && outcomes[2].callback.None?
      && outcomes[2].sleep.None?
  {
    var reqs := [EditConfigReq(Ok(next)), ServerReq(next.apiToken, Ok(body)), ServerReq(cfg.apiToken, Ok(body))];
    RunOutcomeAt(cfg, processEnv, reqs, 1);
    RunOutcomeAt(cfg, processEnv, reqs, 2);
    assert reqs[..1] == [EditConfigReq(Ok(next))];
    RecordSurvivesWithoutEdits(next, processEnv, reqs[1..2]);
    RunSplit(cfg, processEnv, reqs[..1], reqs[1..2]);
    assert reqs[..2] == reqs[..1] + reqs[1..2];
  }

  /** An edit followed by a read returns exactly the edited record. */
  lemma EditThenRead(cfg: Config, processEnv: string, next: Config)
    ensures Run(cfg, processEnv, [EditConfigReq(Ok(next)), GetConfigReq]).1
         == [Outcome(None, Response(StatusOK, ConfigBody(next)), None),
             Outcome(None, Response(StatusOK, ConfigBody(next)), None)]
  {
  }

  /** With the start-up record and the default token, zonelist sleeps 15
      seconds and answers 200 {"message":"ok","status":200}; the other two
      routes answer the same and emit no callback. */
  lemma DefaultsAnswerOkWithoutCallback(processEnv: string, body: ServerAndNotifyReq)
    ensures Step(Defaults(processEnv), processEnv, ZonelistReq(DefaultApiToken)).1
         == Outcome(Some(15), Response(StatusOK, StatusBody("ok", StatusOK)), None)
    ensures Step(Defaults(processEnv), processEnv, ServerReq(DefaultApiToken, Ok(body))).1
         == Outcome(Some(15), Response(StatusOK, StatusBody("ok", StatusOK)), None)
    ensures Step(Defaults(processEnv), processEnv, NotifyReq(DefaultApiToken, Ok(body))).1
         == Outcome(Some(15), Response(StatusOK, StatusBody("ok", StatusOK)), None)
  {
  }

  /** Notify set to answer 202 at once: the answer is 202 without delay, and one
      callback carries the request's token and action id with the default notify
      success flag and message, to the open-server callback URL. */
  lemma AcceptedNotifyScenario(processEnv: string)
    ensures var cfg := Defaults(processEnv).(notifyStatus := StatusAccepted, notifyStatusSleep := 0);
      var body := ServerAndNotifyReq("a1", 0, 0, [], "t1");
      Step(cfg, processEnv, NotifyReq(DefaultApiToken, Ok(body))).1
        == Outcome(Some(0), Response(StatusAccepted, StatusBody("ok", StatusAccepted)),
                   Some(Callback(ServerCallbackUrl(processEnv), CallbackReq("gamedemo", "t1", "a1", true, "oops"))))
  {
  }
}
