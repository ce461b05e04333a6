/**
 * What the two payment routes share: the process environment they read
 * (gateway id, token and base URL; the application's public URL) and the
 * outcome of their one call to the payment gateway.
 */
module Gateway {
  import opened Wrappers
  import opened Js

  const DefaultGatewayUrl: string := "https://c7drkx2ege.execute-api.eu-west-2.amazonaws.com"
  const DefaultAppUrl: string := "https://your-domain.com"

  /** Environment variables: a string, or absent. */
  datatype Env = Env(
    gatewayId: Option<string>,
    gatewayToken: Option<string>,
    gatewayUrl: Option<string>,
    appUrl: Option<string>)

  /** A variable that is present and not empty (truthy). */
  predicate IsSet(v: Option<string>)
  {
    v.Some? && v.value != ""
  }

  /** `process.env.X || fallback` */
  function OrDefault(v: Option<string>, fallback: string): string
  {
    if IsSet(v) then v.value else fallback
  }

  /** Both credentials are set. */
  predicate Configured(env: Env)
  {
    IsSet(env.gatewayId) && IsSet(env.gatewayToken)
  }

  function GatewayBase(env: Env): string
  {
    OrDefault(env.gatewayUrl, DefaultGatewayUrl)
  }

  function AppBase(env: Env): string
  {
    OrDefault(env.appUrl, DefaultAppUrl)
  }

  /** The Authorization header of every gateway call. */
  function Authorization(env: Env): string
    requires Configured(env)
  {
    "Bearer " + env.gatewayToken.value
  }

  /**
   * The outcome of `fetch` to the gateway: it threw (network failure), or the
   * gateway answered with an HTTP status and a body. A route reads that body
   * once, either with `response.text()` or with `response.json()`; `text` and
   * `json` are what each read gives, the text or the parsed value, or the
   * message it rejected with.
   */
  datatype Reply =
    | Unreachable(message: string)
    | Replied(status: int, text: Result<string, string>, json: Result<Value, string>)

  /** `response.ok` */
  predicate Ok(status: int)
  {
    200 <= status <= 299
  }

  /** A POST the handler sends to the gateway. */
  datatype Call = Call(url: string, authorization: string)
}
