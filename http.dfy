/**
 * The direct HTTP request a watcher issues with the headers it captured
 * from the browser. Only what the awaited `axios(...)` call produced is
 * modelled: the network itself is not.
 */
module Http {
  import opened Js

  /** `Resolved`: the call returned a response; `Rejected`: it threw, with
      `error.response.status` when the error carries a response. */
  datatype Reply = Resolved(status: int, body: Value) | Rejected(response: Option<int>)

  /** axios's default `validateStatus`: the call resolves exactly for a 2xx
      status and otherwise rejects with the response attached. */
  predicate AxiosDefault(r: Reply) {
    match r
    case Resolved(status, _) => 200 <= status < 300
    case Rejected(response) => response.Some? ==> !(200 <= response.value < 300)
  }
}
