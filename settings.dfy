/** The server's single configuration record and its start-up values. */
module Settings {
  import opened Common

  const AppId: string := "gamedemo"
  const DefaultApiToken: string := "valid_gamedemo_api_token"

  const StatusOK: Int64 := 200
  const StatusAccepted: Int64 := 202
  const StatusBadRequest: Int64 := 400
  const StatusUnauthorized: Int64 := 401

  /** The `config` record: per-route answer status, sleep in seconds and, for
      the two callback routes, what the callback reports; the token the auth
      gate expects; and an `env` string that nothing else reads. */
  datatype Config = Config(
    openServerStatus: Int64,
    openServerStatusSleep: Int64,
    openServerCallbackSuccess: bool,
    openServerCallbackMessage: string,
    notifyStatus: Int64,
    notifyStatusSleep: Int64,
    notifyCallbackSuccess: bool,
    notifyCallbackMessage: string,
    zonelistStatus: Int64,
    zonelistStatusSleep: Int64,
    apiToken: string,
    env: string)

  /** The record the process starts with; `processEnv` is the value of the
      environment variable `env` at start-up. */
  function Defaults(processEnv: string): Config
  {
    Config(
      openServerStatus := StatusOK,
      openServerStatusSleep := 15,
      openServerCallbackSuccess := true,
      openServerCallbackMessage := "whoops",
      notifyStatus := StatusOK,
      notifyStatusSleep := 15,
      notifyCallbackSuccess := true,
      notifyCallbackMessage := "oops",
      zonelistStatus := StatusOK,
      zonelistStatusSleep := 15,
      apiToken := DefaultApiToken,
      env := processEnv)
  }
}
