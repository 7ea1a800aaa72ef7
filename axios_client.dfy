/** `lib/axios.js`: the request interceptor that adds the signed-in
    username to every request, and the response interceptor that rewrites
    network failures. */
module AxiosClient {
  import opened Base

  const UsernameHeader: string := "X-User-Username"
  const ConnectivityMessage: string := "Unable to connect to the server. Please check your internet connection."

  /** The mutable request config the interceptor receives. */
  class RequestConfig {
    var headers: map<string, string>
    var params: Option<map<string, string>>

    constructor (h: map<string, string>, p: Option<map<string, string>>)
      ensures headers == h && params == p
    {
      headers := h;
      params := p;
    }
  }

  /** The params after the interceptor has run with a username. */
  function WithUsername(params: Option<map<string, string>>, username: string): (r: map<string, string>)
    ensures "username" in r && r["username"] == username
    ensures params.None? ==> r == map["username" := username]
    ensures params.Some? ==> forall k :: k in params.value && k != "username" ==> k in r && r[k] == params.value[k]
    ensures params.Some? ==> r.Keys == params.value.Keys + {"username"}
  {
    if params.None? then map["username" := username] else params.value["username" := username]
  }

  /** The request interceptor. `hasWindow` is false during server-side
      rendering; `username` is `sessionStorage.getItem("user-username")`. */
  method InterceptRequest(config: RequestConfig, hasWindow: bool, username: Option<string>)
    returns (result: RequestConfig)
    modifies config
    ensures result == config
    ensures !hasWindow || username.None? || username.value == "" ==>
              config.headers == old(config.headers) && config.params == old(config.params)
    ensures hasWindow && username.Some? && username.value != "" ==>
              config.headers == old(config.headers)[UsernameHeader := username.value]
              && config.params == Some(WithUsername(old(config.params), username.value))
  {
    if !hasWindow {
      return config;
    }
    if username.Some? && username.value != "" {
      config.headers := config.headers[UsernameHeader := username.value];
      if config.params.None? {
        config.params := Some(map["username" := username.value]);
      } else {
        config.params := Some(config.params.value["username" := username.value]);
      }
    }
    result := config;
  }

  /** A rejected request: its message and whether it carries a server response. */
  datatype RequestError = RequestError(message: string, hasResponse: bool)

  datatype Settled<T> = Fulfilled(response: T) | Rejected(error: RequestError)

  /** The response interceptor: responses pass through, "Network Error" is
      replaced by a new error with the connectivity message, every other
      error is rethrown as it is. */
  function InterceptResponse<T>(r: Settled<T>): (out: Settled<T>)
    ensures r.Fulfilled? ==> out == r
    ensures r.Rejected? && r.error.message == "Network Error" ==>
              out == Rejected(RequestError(ConnectivityMessage, false))
    ensures r.Rejected? && r.error.message != "Network Error" ==> out == r
  {
    match r
    case Fulfilled(_) => r
    case Rejected(e) =>
      if e.message == "Network Error" then Rejected(RequestError(ConnectivityMessage, false)) else r
  }

  /** Applying the interceptor to its own output changes nothing more. */
  lemma InterceptResponseIdempotent<T>(r: Settled<T>)
    ensures InterceptResponse(InterceptResponse(r)) == InterceptResponse(r)
  {
  }
}
