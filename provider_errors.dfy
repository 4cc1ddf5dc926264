/** How both provider helpers (`lib/helpers/seoulBus.ts` and
    `lib/helpers/tago.ts`) turn what a request rejected with into an HTTP
    error: the `catch` blocks of their `fetch*` functions and
    `ensureNoXmlData`. */
module ProviderErrors {
  import opened Wrappers
  import opened Text
  import opened BusTypes

  /** What a provider request rejects with: an `Error` instance, an object
      carrying a response body in `data` (the XML error body the open-data
      portals answer with), or any other value. */
  datatype Thrown = ErrorInstance(failure: Failure) | ResponseWithData(data: string) | OtherValue

  const SERVICE_KEY: string := "SERVICE_KEY"
  const SERVICE: string := "SERVICE"

  /** An unregistered service key is also a denied service: the key check
      has to come first. */
  lemma ServiceKeyMentionsService(data: string)
    requires Contains(data, SERVICE_KEY)
    ensures Contains(data, SERVICE)
  {
    ContainsPrefixOfNeedle(data, SERVICE_KEY, |SERVICE|);
    assert SERVICE_KEY[..|SERVICE|] == SERVICE;
  }

  /** `ensureNoXmlData`: the error a response body stands for, and nothing
      for a value without a body. `provider` is the provider's own name. */
  function EnsureNoXmlData(thrown: Thrown, provider: string): (r: Option<HttpError>)
    ensures r.Some? <==> thrown.ResponseWithData?
    ensures r.Some? ==> (r.value.Unauthorized? <==> Contains(thrown.data, SERVICE_KEY))
    ensures r.Some? ==> (r.value.Forbidden? <==> Contains(thrown.data, SERVICE) && !Contains(thrown.data, SERVICE_KEY))
    ensures r.Some? ==> (r.value == ServiceUnavailable(provider) <==> !Contains(thrown.data, SERVICE))
  {
    match thrown
    case ResponseWithData(data) =>
      if Contains(data, SERVICE_KEY) then
        ServiceKeyMentionsService(data);
        Some(Unauthorized("Service key not registered"))
      else if Contains(data, SERVICE) then Some(Forbidden("Service access denied"))
      else Some(ServiceUnavailable(provider))
    case _ => None
  }

  /** The `catch` block of every `fetch*`: an `Error` is rethrown as it is,
      a response body is classified, and anything else is a bad request. */
  function Rejection(thrown: Thrown, provider: string): (r: Failure)
    ensures thrown.ErrorInstance? ==> r == thrown.failure
    ensures thrown.OtherValue? ==> r == Http(BadRequest("Unknown"))
    ensures !thrown.ErrorInstance? ==> r.Http? && r.error.Code() in {400, 401, 403, 503}
    ensures thrown.ResponseWithData? ==>
      && (r == Http(Unauthorized("Service key not registered")) <==> Contains(thrown.data, SERVICE_KEY))
      && (r == Http(Forbidden("Service access denied")) <==> Contains(thrown.data, SERVICE) && !Contains(thrown.data, SERVICE_KEY))
      && (r == Http(ServiceUnavailable(provider)) <==> !Contains(thrown.data, SERVICE))
  {
    match thrown
    case ErrorInstance(failure) => failure
    case ResponseWithData(_) => Http(EnsureNoXmlData(thrown, provider).value)
    case OtherValue => Http(BadRequest("Unknown"))
  }
}
