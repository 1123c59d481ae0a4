/** `makeAPICall`: one authenticated request to the Tailscale v2 API and the
    reading of its response. The network is a parameter: `fetch` becomes a
    function from the request to what came back. */
module Api {
  import opened Wrappers
  import opened JsValues
  import opened Startup
  import Decimal

  const ApiBase := "https://api.tailscale.com/api/v2/tailnet/"

  datatype HttpMethod = GET | POST

  /** What is handed to `fetch`: URL, method, headers and, when there is one,
      the JSON value whose serialisation is the request body. */
  datatype Request = Request(url: string, verb: HttpMethod, headers: seq<(string, string)>, body: Option<Json>)

  /** The outcome of `response.json()`: a parsed value, or the parse error's message. */
  datatype Body = Parsed(value: Json) | Unparsable(message: string)

  datatype Response = Response(ok: bool, status: nat, statusText: string, body: Body)

  /** What `fetch` does: it rejects with an error message, or it yields a response. */
  datatype FetchOutcome = Rejected(message: string) | Responded(response: Response)

  /** The message thrown for a response whose `ok` flag is false. */
  function ApiFailureMessage(status: nat, statusText: string): string {
    "API call failed: " + Decimal.NatToString(status) + " " + statusText
  }

  /** The two headers every API call carries: the bearer token and the JSON content type. */
  function Headers(config: Config): seq<(string, string)> {
    [("Authorization", "Bearer " + config.apiKey), ("Content-Type", "application/json")]
  }

  /** The request half of `makeAPICall`. The method (`verb`) defaults to GET; a body
      is attached only when one is given and it is truthy (`if (body)`). */
  function BuildRequest(config: Config, endpoint: string, verb: Option<HttpMethod>, body: Option<Json>): (r: Request)
    ensures |r.url| == |ApiBase| + |config.tailnet| + |endpoint|
    ensures r.url[..|ApiBase|] == ApiBase
    ensures r.url[|ApiBase|..|ApiBase| + |config.tailnet|] == config.tailnet
    ensures r.url[|ApiBase| + |config.tailnet|..] == endpoint
    ensures verb.None? ==> r.verb == GET
    ensures verb.Some? ==> r.verb == verb.value
    ensures r.headers == Headers(config)
    ensures r.body.Some? <==> body.Some? && Truthy(body.value)
    ensures r.body.Some? ==> r.body == body
  {
    var url := ApiBase + config.tailnet + endpoint;
    var attached := if body.Some? && Truthy(body.value) then body else None;
    Request(url, if verb.Some? then verb.value else GET, Headers(config), attached)
  }

  /** The response half of `makeAPICall`: a rejected fetch and a response
      that is not ok throw, the latter before its body is read; otherwise
      the parsed body is returned, and a body that does not parse throws. */
  function ReadResponse(outcome: FetchOutcome): (r: Result<Json, string>)
    ensures r.Success? <==> outcome.Responded? && outcome.response.ok && outcome.response.body.Parsed?
    ensures r.Success? ==> r.value == outcome.response.body.value
    ensures outcome.Rejected? ==> r == Failure(outcome.message)
    ensures outcome.Responded? && !outcome.response.ok ==>
      r == Failure(ApiFailureMessage(outcome.response.status, outcome.response.statusText))
    ensures outcome.Responded? && outcome.response.ok && outcome.response.body.Unparsable? ==>
      r == Failure(outcome.response.body.message)
  {
    match outcome
    case Rejected(message) => Failure(message)
    case Responded(response) =>
      if !response.ok then Failure(ApiFailureMessage(response.status, response.statusText))
      else match response.body
        case Parsed(data) => Success(data)
        case Unparsable(message) => Failure(message)
  }

  /** `makeAPICall(endpoint, verb, body)` against the network `network`. */
  function MakeApiCall(config: Config, endpoint: string, verb: Option<HttpMethod>, body: Option<Json>,
                       network: Request -> FetchOutcome): (r: Result<Json, string>)
    ensures var outcome := network(BuildRequest(config, endpoint, verb, body));
      && (r.Success? <==> outcome.Responded? && outcome.response.ok && outcome.response.body.Parsed?)
      && (r.Success? ==> r.value == outcome.response.body.value)
      && (outcome.Rejected? ==> r == Failure(outcome.message))
      && (outcome.Responded? && !outcome.response.ok ==>
            r == Failure(ApiFailureMessage(outcome.response.status, outcome.response.statusText)))
      && (outcome.Responded? && outcome.response.ok && outcome.response.body.Unparsable? ==>
            r == Failure(outcome.response.body.message))
  {
    ReadResponse(network(BuildRequest(config, endpoint, verb, body)))
  }

  /** The status in a failure message can be read back: the message is the
      fixed prefix, the decimal numeral of the status, a space and the status text. */
  lemma ApiFailureMessageDecodes(status: nat, statusText: string)
    ensures var digits := Decimal.NatToString(status);
      && ApiFailureMessage(status, statusText) == "API call failed: " + digits + " " + statusText
      && Decimal.AllDigits(digits) && Decimal.DecimalValue(digits) == status
  {
    Decimal.DecimalRoundTrip(status);
  }
}
