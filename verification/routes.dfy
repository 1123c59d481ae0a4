/** The routing table: which API call each resolved tool invocation makes
    (endpoint, method and body passed to `makeAPICall`), and its inverse, which
    recovers the invocation from the request alone. */
module Routes {
  import opened Wrappers
  import opened JsValues
  import opened Startup
  import opened Api
  import Tools

  /** A tool invocation with its `device_id` argument already turned into
      the text that is interpolated into the path. */
  datatype Operation =
    | Devices
    | Device(id: string)
    | Authorize(id: string, authorized: bool)
    | Acl
    | DnsPreferences

  /** The tool an operation belongs to. */
  function ToolOf(op: Operation): Tools.Tool {
    match op
    case Devices => Tools.ListDevices
    case Device(_) => Tools.GetDeviceInfo
    case Authorize(_, authorized) => if authorized then Tools.EnableDevice else Tools.DisableDevice
    case Acl => Tools.GetAcl
    case DnsPreferences => Tools.GetDnsSettings
  }

  /** The arguments of one `makeAPICall` call; `None` stands for an omitted argument. */
  datatype ApiCall = ApiCall(endpoint: string, verb: Option<HttpMethod>, body: Option<Json>)

  /** The `{ authorized: ... }` body of the enable and disable calls. */
  function AuthorizedBody(authorized: bool): Json {
    Obj([("authorized", Bool(authorized))])
  }

  /** The call each handler makes. Only enabling and disabling pass a
      method and a body. */
  function CallOf(op: Operation): (c: ApiCall)
    ensures c.verb.Some? <==> op.Authorize?
    ensures c.body.Some? <==> op.Authorize?
  {
    match op
    case Devices => ApiCall("/devices", None, None)
    case Device(id) => ApiCall("/devices/" + id, None, None)
    case Authorize(id, authorized) =>
      ApiCall("/devices/" + id + "/authorized", Some(POST), Some(AuthorizedBody(authorized)))
    case Acl => ApiCall("/acl", None, None)
    case DnsPreferences => ApiCall("/dns/preferences", None, None)
  }

  /** The request an operation sends. Only enabling and disabling POST, and
      only they carry a body; every other tool is a body-less GET. */
  function RequestFor(config: Config, op: Operation): (r: Request)
    ensures r.verb == POST <==> op.Authorize?
    ensures r.body.Some? <==> op.Authorize?
    ensures op.Authorize? ==> r.body == Some(AuthorizedBody(op.authorized))
    ensures r.headers == Headers(config)
  {
    var call := CallOf(op);
    BuildRequest(config, call.endpoint, call.verb, call.body)
  }

  predicate HasPrefix(s: string, prefix: string) {
    |prefix| <= |s| && s[..|prefix|] == prefix
  }

  predicate HasSuffix(s: string, suffix: string) {
    |suffix| <= |s| && s[|s| - |suffix|..] == suffix
  }

  const DevicesPrefix := "/devices/"
  const AuthorizedSuffix := "/authorized"

  /** Reads a request back as the operation that sends it, if any. */
  function OperationOf(config: Config, req: Request): Option<Operation> {
    var base := ApiBase + config.tailnet;
    if !HasPrefix(req.url, base) then None
    else
      var e := req.url[|base|..];
      match req.verb
      case GET =>
        if req.body.Some? then None
        else if e == "/devices" then Some(Devices)
        else if e == "/acl" then Some(Acl)
        else if e == "/dns/preferences" then Some(DnsPreferences)
        else if HasPrefix(e, DevicesPrefix) then Some(Device(e[|DevicesPrefix|..]))
        else None
      case POST =>
        if !(HasPrefix(e, DevicesPrefix) && HasSuffix(e, AuthorizedSuffix)
             && |DevicesPrefix| + |AuthorizedSuffix| <= |e|) then None
        else
          var id := e[|DevicesPrefix|..|e| - |AuthorizedSuffix|];
          if req.body == Some(AuthorizedBody(true)) then Some(Authorize(id, true))
          else if req.body == Some(AuthorizedBody(false)) then Some(Authorize(id, false))
          else None
  }

  /** Every request the server sends identifies its operation, device id
      included, whatever text the id is. */
  lemma RoutingRoundTrip(config: Config, op: Operation)
    ensures OperationOf(config, RequestFor(config, op)) == Some(op)
  {
    var req := RequestFor(config, op);
    var base := ApiBase + config.tailnet;
    var e := CallOf(op).endpoint;
    assert req.url == base + e;
    assert req.url[..|base|] == base;
    assert req.url[|base|..] == e;
    match op
    case Devices =>
    case Acl =>
    case DnsPreferences =>
    case Device(id) =>
      assert e[..|DevicesPrefix|] == DevicesPrefix;
      assert e != "/devices" by { assert |e| != |"/devices"|; }
      assert e != "/acl" by { assert e[1] == 'd'; }
      assert e != "/dns/preferences" by { assert e[2] == 'e'; }
      assert e[|DevicesPrefix|..] == id;
    case Authorize(id, authorized) =>
      assert e == DevicesPrefix + id + AuthorizedSuffix;
      assert e[..|DevicesPrefix|] == DevicesPrefix;
      assert e[|e| - |AuthorizedSuffix|..] == AuthorizedSuffix;
      assert e[|DevicesPrefix|..|e| - |AuthorizedSuffix|] == id;
      assert AuthorizedBody(true) != AuthorizedBody(false);
  }

  /** Distinct operations never send the same request. */
  lemma RoutingInjective(config: Config, op1: Operation, op2: Operation)
    requires RequestFor(config, op1) == RequestFor(config, op2)
    ensures op1 == op2
  {
    RoutingRoundTrip(config, op1);
    RoutingRoundTrip(config, op2);
  }
}
