/** The tool-call handler: it selects the handler by tool name, runs it
    against the network, and turns any error it throws into a one-item
    text reply `Error: <message>`, so that no error leaves the handler. */
module Dispatcher {
  import opened Wrappers
  import opened JsValues
  import opened Startup
  import opened Api
  import opened Tools
  import opened Routes
  import opened Devices

  /** One content item `{ type: "text", text }`. */
  datatype Content = Text(text: string)

  /** The reply to a tool call. It has no error flag: failures are told
      apart only by their text. */
  datatype Envelope = Envelope(content: seq<Content>)

  /** What a handler returns: its reply text, or the message of the error it throws. */
  type Outcome = Result<string, string>

  function UnknownToolMessage(name: string): string {
    "Unknown tool: " + name
  }

  const ErrorPrefix := "Error: "

  /** Whether interpolating `args.device_id` throws: `args` is absent or
      `null`, or `device_id` is a value with no primitive text. */
  predicate DeviceIdThrows(args: JsValue) {
    || args == Undefined
    || args == Defined(Null)
    || (args.value.Obj? && Lookup(args.value.members, "device_id").Some?
        && NoPrimitive(Lookup(args.value.members, "device_id").value))
  }

  /** `args.device_id`, as the text a template literal makes of it. Absent
      arguments throw; an absent `device_id` becomes "undefined", since
      nothing checks that the argument is present. */
  function DeviceIdText(args: JsValue): (r: Result<string, string>)
    ensures r.Failure? <==> DeviceIdThrows(args)
    ensures args == Undefined ==> r == Failure(ReadError("undefined", "device_id"))
    ensures args == Defined(Null) ==> r == Failure(ReadError("null", "device_id"))
    ensures args.Defined? && args.value != Null && r.Failure? ==> r.error == ConversionError
    ensures args.Defined? && args.value.Obj? ==>
      r == TemplateString(OfOption(Lookup(args.value.members, "device_id")))
  {
    var id :- Member(args, "device_id");
    TemplateString(id)
  }

  /** The `switch (name)` cases after the name has selected a tool: the
      device tools read `args.device_id` before any request is made. */
  function Resolve(tool: Tool, args: JsValue): (r: Result<Operation, string>)
    ensures r.Success? ==> ToolOf(r.value) == tool
    ensures r.Failure? <==> TakesDeviceId(tool) && DeviceIdThrows(args)
    ensures r.Failure? ==> r.error == DeviceIdText(args).error
  {
    match tool
    case ListDevices => Success(Devices)
    case GetDeviceInfo =>
      var id :- DeviceIdText(args);
      Success(Device(id))
    case EnableDevice =>
      var id :- DeviceIdText(args);
      Success(Authorize(id, true))
    case DisableDevice =>
      var id :- DeviceIdText(args);
      Success(Authorize(id, false))
    case GetAcl => Success(Acl)
    case GetDnsSettings => Success(DnsPreferences)
  }

  /** The text `list_devices` replies with: the pretty-printed projection.
      It throws what `data.devices.map` throws, or, for a `null` device, the
      TypeError for reading its `id`. */
  function DeviceListText(data: Json, pretty: Json -> string): (r: Outcome)
    ensures r.Success? <==>
      DeviceList(data).Success? && forall i :: 0 <= i < |DeviceList(data).value| ==> DeviceList(data).value[i] != Null
    ensures DeviceList(data).Failure? ==> r == Failure(DeviceList(data).error)
    ensures DeviceList(data).Success? && r.Failure? ==> r.error == ReadError("null", "id")
  {
    var items :- DeviceList(data);
    var summaries :- ProjectDevices(items);
    Success(pretty(Arr(seq(|summaries|, i requires 0 <= i < |summaries| => SummaryJson(summaries[i])))))
  }

  /** What each handler replies once its API call has returned `data`. Only
      `list_devices` can still throw at that point. */
  function SuccessText(op: Operation, data: Json, pretty: Json -> string): (r: Outcome)
    ensures r.Failure? ==> op.Devices? && r == DeviceListText(data, pretty)
  {
    match op
    case Devices => DeviceListText(data, pretty)
    case Device(_) => Success(pretty(data))
    case Authorize(id, authorized) =>
      Success("Device " + id + " has been " + (if authorized then "enabled" else "disabled"))
    case Acl => Success(pretty(data))
    case DnsPreferences => Success(pretty(data))
  }

  /** The request a call sends, or `None` when it fails before sending one:
      an unknown name, or a device tool whose `device_id` cannot be read or
      turned into text. */
  function PlanRequest(config: Config, name: string, args: JsValue): (r: Option<Request>)
    ensures r.Some? <==>
      ToolNamed(name).Some? && !(TakesDeviceId(ToolNamed(name).value) && DeviceIdThrows(args))
  {
    match ToolNamed(name)
    case None => None
    case Some(tool) =>
      match Resolve(tool, args)
      case Failure(_) => None
      case Success(op) => Some(RequestFor(config, op))
  }

  /** A planned request identifies the tool that was called. */
  lemma PlannedRequestIdentifiesTool(config: Config, name: string, args: JsValue)
    requires PlanRequest(config, name, args).Some?
    ensures var op := OperationOf(config, PlanRequest(config, name, args).value);
      op.Some? && ToolOf(op.value) == ToolNamed(name).value
  {
    var op := Resolve(ToolNamed(name).value, args).value;
    RoutingRoundTrip(config, op);
  }

  /** The call handler's `try` block: select, resolve, call the API, reply. */
  function Invoke(config: Config, name: string, args: JsValue,
                  network: Request -> FetchOutcome, pretty: Json -> string): (r: Outcome)
    ensures ToolNamed(name).None? ==> r == Failure(UnknownToolMessage(name))
    ensures PlanRequest(config, name, args).None? ==> r.Failure?
    ensures PlanRequest(config, name, args).Some? && ReadResponse(network(PlanRequest(config, name, args).value)).Failure? ==>
      r == Failure(ReadResponse(network(PlanRequest(config, name, args).value)).error)
  {
    var tool :- ToolNamed(name).ToResult(UnknownToolMessage(name));
    var op :- Resolve(tool, args);
    var call := CallOf(op);
    var data :- MakeApiCall(config, call.endpoint, call.verb, call.body, network);
    SuccessText(op, data, pretty)
  }

  /** The `catch` block: a reply passes through, a thrown error becomes its message's text. */
  function Normalize(outcome: Outcome): (e: Envelope)
    ensures |e.content| == 1
    ensures outcome.Success? ==> e.content[0].text == outcome.value
    ensures outcome.Failure? ==> e.content[0].text == ErrorPrefix + outcome.error
  {
    match outcome
    case Success(text) => Envelope([Text(text)])
    case Failure(message) => Envelope([Text(ErrorPrefix + message)])
  }

  /** Every tool call yields exactly one text item: the handler's reply, or
      "Error: " followed by the message of whatever it threw. */
  function HandleCall(config: Config, name: string, args: JsValue,
                      network: Request -> FetchOutcome, pretty: Json -> string): (e: Envelope)
    ensures |e.content| == 1
    ensures Invoke(config, name, args, network, pretty).Success? ==>
      e.content[0].text == Invoke(config, name, args, network, pretty).value
    ensures Invoke(config, name, args, network, pretty).Failure? ==>
      e.content[0].text == ErrorPrefix + Invoke(config, name, args, network, pretty).error
  {
    Normalize(Invoke(config, name, args, network, pretty))
  }

  /** A name that is not in the advertised table gets the unknown-tool
      reply, and no request is sent for it. */
  lemma UnknownTool(config: Config, name: string, args: JsValue,
                    network: Request -> FetchOutcome, pretty: Json -> string)
    requires forall i :: 0 <= i < |ToolTable()| ==> ToolTable()[i].name != name
    ensures HandleCall(config, name, args, network, pretty) == Envelope([Text("Error: Unknown tool: " + name)])
    ensures PlanRequest(config, name, args).None?
  {
    ToolTableMatchesDispatch();
    assert ToolNamed(name).None?;
    assert "Error: Unknown tool: " + name == ErrorPrefix + UnknownToolMessage(name);
  }

  /** The network is consulted only on the planned request: two networks
      that answer it alike give the same reply, and when no request is
      planned the network plays no part at all. */
  lemma OnlyPlannedRequestMatters(config: Config, name: string, args: JsValue,
                                  n1: Request -> FetchOutcome, n2: Request -> FetchOutcome,
                                  pretty: Json -> string)
    requires PlanRequest(config, name, args).Some? ==>
      n1(PlanRequest(config, name, args).value) == n2(PlanRequest(config, name, args).value)
    ensures HandleCall(config, name, args, n1, pretty) == HandleCall(config, name, args, n2, pretty)
  {
  }

  /** The routing table for the tools without arguments: a body-less GET
      of a fixed path, whatever the arguments. */
  lemma RoutingTableFixed(config: Config, args: JsValue)
    ensures var base := ApiBase + config.tailnet;
      && PlanRequest(config, "list_devices", args) == Some(Request(base + "/devices", GET, Headers(config), None))
      && PlanRequest(config, "get_acl", args) == Some(Request(base + "/acl", GET, Headers(config), None))
      && PlanRequest(config, "get_dns_settings", args) == Some(Request(base + "/dns/preferences", GET, Headers(config), None))
  {
  }

  /** The routing table for `get_device_info`: a body-less GET of the
      device's path, with the text of `device_id` interpolated into it, and
      no request when that text cannot be made. */
  lemma RoutingTableDeviceInfo(config: Config, members: seq<(string, Json)>)
    ensures var id := TemplateString(OfOption(Lookup(members, "device_id")));
      && (id.Failure? ==> PlanRequest(config, "get_device_info", Defined(Obj(members))).None?)
      && (id.Success? ==>
            PlanRequest(config, "get_device_info", Defined(Obj(members)))
              == Some(Request(ApiBase + config.tailnet + "/devices/" + id.value, GET, Headers(config), None)))
  {
    var id := TemplateString(OfOption(Lookup(members, "device_id")));
    assert DeviceIdText(Defined(Obj(members))) == id;
    if id.Success? {
      assert (ApiBase + config.tailnet) + ("/devices/" + id.value) == ApiBase + config.tailnet + "/devices/" + id.value;
    }
  }

  /** The routing table for `enable_device`: a POST of `{authorized: true}`
      to the device's `authorized` path, and no request when the text of
      `device_id` cannot be made. */
  lemma RoutingTableEnable(config: Config, members: seq<(string, Json)>)
    ensures var id := TemplateString(OfOption(Lookup(members, "device_id")));
      && (id.Failure? ==> PlanRequest(config, "enable_device", Defined(Obj(members))).None?)
      && (id.Success? ==>
            PlanRequest(config, "enable_device", Defined(Obj(members)))
              == Some(Request(ApiBase + config.tailnet + "/devices/" + id.value + "/authorized", POST, Headers(config),
                              Some(Obj([("authorized", Bool(true))])))))
  {
    var args := Defined(Obj(members));
    var id := TemplateString(OfOption(Lookup(members, "device_id")));
    assert DeviceIdText(args) == id;
    if id.Success? {
      assert Resolve(EnableDevice, args) == Success(Authorize(id.value, true));
      assert (ApiBase + config.tailnet) + ("/devices/" + id.value + "/authorized")
        == ApiBase + config.tailnet + "/devices/" + id.value + "/authorized";
    }
  }

  /** The routing table for `disable_device`: a POST of `{authorized: false}`
      to the device's `authorized` path, and no request when the text of
      `device_id` cannot be made. */
  lemma RoutingTableDisable(config: Config, members: seq<(string, Json)>)
    ensures var id := TemplateString(OfOption(Lookup(members, "device_id")));
      && (id.Failure? ==> PlanRequest(config, "disable_device", Defined(Obj(members))).None?)
      && (id.Success? ==>
            PlanRequest(config, "disable_device", Defined(Obj(members)))
              == Some(Request(ApiBase + config.tailnet + "/devices/" + id.value + "/authorized", POST, Headers(config),
                              Some(Obj([("authorized", Bool(false))])))))
  {
    var args := Defined(Obj(members));
    var id := TemplateString(OfOption(Lookup(members, "device_id")));
    assert DeviceIdText(args) == id;
    if id.Success? {
      assert Resolve(DisableDevice, args) == Success(Authorize(id.value, false));
      assert (ApiBase + config.tailnet) + ("/devices/" + id.value + "/authorized")
        == ApiBase + config.tailnet + "/devices/" + id.value + "/authorized";
    }
  }

  /** A `device_id` that is a string is inserted into the path verbatim. */
  lemma StringDeviceId(config: Config, members: seq<(string, Json)>, id: string)
    requires Lookup(members, "device_id") == Some(Str(id))
    ensures PlanRequest(config, "get_device_info", Defined(Obj(members)))
      == Some(Request(ApiBase + config.tailnet + "/devices/" + id, GET, Headers(config), None))
  {
    RoutingTableDeviceInfo(config, members);
  }

  /** A missing `device_id` is inserted as "undefined": nothing checks that
      the argument is present. */
  lemma MissingDeviceId(config: Config, members: seq<(string, Json)>)
    requires Lookup(members, "device_id").None?
    ensures PlanRequest(config, "get_device_info", Defined(Obj(members)))
      == Some(Request(ApiBase + config.tailnet + "/devices/" + "undefined", GET, Headers(config), None))
  {
    RoutingTableDeviceInfo(config, members);
  }

  /** Calling a device tool without arguments fails on reading `args.device_id`,
      before any request. */
  lemma DeviceToolWithoutArguments(config: Config, name: string,
                                   network: Request -> FetchOutcome, pretty: Json -> string)
    requires name in {"get_device_info", "enable_device", "disable_device"}
    ensures HandleCall(config, name, Undefined, network, pretty)
      == Envelope([Text(ErrorPrefix + ReadError("undefined", "device_id"))])
    ensures PlanRequest(config, name, Undefined).None?
  {
  }

  /** A device tool whose `device_id` has no primitive text (an object with
      a `toString` member, or an array holding one) fails on building the
      path, before any request. */
  lemma UnconvertibleDeviceId(config: Config, name: string, members: seq<(string, Json)>,
                              network: Request -> FetchOutcome, pretty: Json -> string)
    requires name in {"get_device_info", "enable_device", "disable_device"}
    requires Lookup(members, "device_id").Some? && NoPrimitive(Lookup(members, "device_id").value)
    ensures HandleCall(config, name, Defined(Obj(members)), network, pretty)
      == Envelope([Text(ErrorPrefix + ConversionError)])
    ensures PlanRequest(config, name, Defined(Obj(members))).None?
  {
    assert DeviceIdThrows(Defined(Obj(members)));
  }

  /** A response that is not ok gives the same reply whatever the tool:
      "Error: API call failed: <status> <statusText>". */
  lemma NonOkResponse(config: Config, name: string, args: JsValue, network: Request -> FetchOutcome,
                      pretty: Json -> string, req: Request)
    requires PlanRequest(config, name, args) == Some(req)
    requires network(req).Responded? && !network(req).response.ok
    ensures HandleCall(config, name, args, network, pretty)
      == Envelope([Text("Error: API call failed: " + Decimal.NatToString(network(req).response.status)
                        + " " + network(req).response.statusText)])
  {
    var response := network(req).response;
    assert "Error: API call failed: " + Decimal.NatToString(response.status) + " " + response.statusText
      == ErrorPrefix + ApiFailureMessage(response.status, response.statusText);
  }

  /** A fetch that rejects, or an ok response whose body does not parse,
      gives "Error: " and that error's message. */
  lemma TransportFailures(config: Config, name: string, args: JsValue, network: Request -> FetchOutcome,
                          pretty: Json -> string, req: Request)
    requires PlanRequest(config, name, args) == Some(req)
    ensures network(req).Rejected? ==>
      HandleCall(config, name, args, network, pretty) == Envelope([Text(ErrorPrefix + network(req).message)])
    ensures network(req).Responded? && network(req).response.ok && network(req).response.body.Unparsable? ==>
      HandleCall(config, name, args, network, pretty)
        == Envelope([Text(ErrorPrefix + network(req).response.body.message)])
  {
  }

  /** Enabling and disabling POST to the device whose id text is `id`, and
      on an ok response reply with a fixed sentence naming it, whatever the
      parsed response body was. */
  lemma AuthorizeReply(config: Config, authorized: bool, args: JsValue, id: string,
                       network: Request -> FetchOutcome, pretty: Json -> string)
    requires DeviceIdText(args) == Success(id)
    requires var outcome := network(RequestFor(config, Authorize(id, authorized)));
      outcome.Responded? && outcome.response.ok && outcome.response.body.Parsed?
    ensures var name := if authorized then "enable_device" else "disable_device";
      && PlanRequest(config, name, args) == Some(RequestFor(config, Authorize(id, authorized)))
      && HandleCall(config, name, args, network, pretty)
           == Envelope([Text("Device " + id + " has been " + (if authorized then "enabled" else "disabled"))])
  {
    var name := if authorized then "enable_device" else "disable_device";
    var op := Authorize(id, authorized);
    assert ToolNamed(name) == Some(ToolOf(op));
    assert Resolve(ToolOf(op), args) == Success(op);
    var data := network(RequestFor(config, op)).response.body.value;
    assert Invoke(config, name, args, network, pretty) == SuccessText(op, data, pretty);
  }

  /** `get_device_info`, `get_acl` and `get_dns_settings` reply with the
      pretty-printed response body when their request gets an ok response
      that parses. */
  lemma PrettyPrintedReply(config: Config, name: string, args: JsValue, network: Request -> FetchOutcome,
                           pretty: Json -> string, req: Request)
    requires name in {"get_device_info", "get_acl", "get_dns_settings"}
    requires PlanRequest(config, name, args) == Some(req)
    requires network(req).Responded? && network(req).response.ok && network(req).response.body.Parsed?
    ensures HandleCall(config, name, args, network, pretty)
      == Envelope([Text(pretty(network(req).response.body.value))])
  {
    var op := Resolve(ToolNamed(name).value, args).value;
    assert req == RequestFor(config, op);
    var data := network(req).response.body.value;
    assert Invoke(config, name, args, network, pretty) == SuccessText(op, data, pretty);
  }

  /** The serialised records of a projected device list. */
  function Records(summaries: seq<seq<(string, JsValue)>>): (r: seq<Json>)
    ensures |r| == |summaries|
    ensures forall i :: 0 <= i < |r| ==> r[i].Obj?
  {
    seq(|summaries|, i requires 0 <= i < |summaries| => SummaryJson(summaries[i]))
  }

  /** An ok `list_devices` response whose `devices` is an array of
      non-null values; `devices` names that array. */
  predicate DeviceListResponse(config: Config, network: Request -> FetchOutcome, devices: seq<Json>) {
    var outcome := network(RequestFor(config, Routes.Devices));
    && outcome.Responded? && outcome.response.ok && outcome.response.body.Parsed?
    && outcome.response.body.value.Obj?
    && Lookup(outcome.response.body.value.members, "devices") == Some(Arr(devices))
    && forall i :: 0 <= i < |devices| ==> devices[i] != Null
  }

  /** The reply to such a response is the pretty-printed list of serialised records. */
  lemma ListDevicesReplyText(config: Config, args: JsValue, network: Request -> FetchOutcome,
                             pretty: Json -> string, devices: seq<Json>)
    requires DeviceListResponse(config, network, devices)
    ensures ProjectDevices(devices).Success?
    ensures HandleCall(config, "list_devices", args, network, pretty)
      == Envelope([Text(pretty(Arr(Records(ProjectDevices(devices).value))))])
  {
    var data := network(RequestFor(config, Routes.Devices)).response.body.value;
    assert DeviceList(data) == Success(devices);
    assert Invoke(config, "list_devices", args, network, pretty) == DeviceListText(data, pretty);
  }

  /** Each way `list_devices` can fail after an ok response replies
      `Error: ` and the TypeError the handler throws. */
  lemma ListDevicesFailures(config: Config, args: JsValue, network: Request -> FetchOutcome,
                            pretty: Json -> string, data: Json)
    requires var outcome := network(RequestFor(config, Routes.Devices));
      outcome.Responded? && outcome.response.ok && outcome.response.body == Parsed(data)
    ensures DeviceListText(data, pretty).Failure? ==>
      HandleCall(config, "list_devices", args, network, pretty)
        == Envelope([Text(ErrorPrefix + DeviceListText(data, pretty).error)])
    ensures data == Null ==>
      HandleCall(config, "list_devices", args, network, pretty)
        == Envelope([Text(ErrorPrefix + ReadError("null", "devices"))])
    ensures data.Obj? && Lookup(data.members, "devices").None? ==>
      HandleCall(config, "list_devices", args, network, pretty)
        == Envelope([Text(ErrorPrefix + ReadError("undefined", "map"))])
    ensures (data.Obj? && Lookup(data.members, "devices").Some?
             && Lookup(data.members, "devices").value != Null && !Lookup(data.members, "devices").value.Arr?) ==>
      HandleCall(config, "list_devices", args, network, pretty)
        == Envelope([Text(ErrorPrefix + NotAFunctionMessage)])
    ensures (data.Obj? && Lookup(data.members, "devices").Some? && Lookup(data.members, "devices").value.Arr?
             && Null in Lookup(data.members, "devices").value.items) ==>
      HandleCall(config, "list_devices", args, network, pretty)
        == Envelope([Text(ErrorPrefix + ReadError("null", "id"))])
  {
    assert Invoke(config, "list_devices", args, network, pretty) == DeviceListText(data, pretty);
  }

  /** The serialised records match the devices one for one, field by field. */
  lemma RecordsProjectDevices(devices: seq<Json>)
    requires forall i :: 0 <= i < |devices| ==> devices[i] != Null
    ensures ProjectDevices(devices).Success?
    ensures var records := Records(ProjectDevices(devices).value);
      |records| == |devices| && forall i :: 0 <= i < |devices| ==> IsProjectionOf(records[i], devices[i])
  {
    var summaries := ProjectDevices(devices).value;
    var records := Records(summaries);
    forall i | 0 <= i < |devices|
      ensures IsProjectionOf(records[i], devices[i])
    {
      SummaryJsonFields(devices[i]);
      assert records[i] == SummaryJson(Summarize(devices[i]).value);
    }
  }

  /** A successful `list_devices` replies with the pretty-printed list of
      device records: one per device, in the same order, each holding only
      the nine projected fields, with the device's own value for each. */
  lemma ListDevicesReply(config: Config, args: JsValue, network: Request -> FetchOutcome,
                         pretty: Json -> string, devices: seq<Json>)
    requires DeviceListResponse(config, network, devices)
    ensures exists records: seq<Json> ::
      && HandleCall(config, "list_devices", args, network, pretty) == Envelope([Text(pretty(Arr(records)))])
      && |records| == |devices|
      && forall i :: 0 <= i < |devices| ==> IsProjectionOf(records[i], devices[i])
  {
    ListDevicesReplyText(config, args, network, pretty, devices);
    RecordsProjectDevices(devices);
    var records := Records(ProjectDevices(devices).value);
    assert HandleCall(config, "list_devices", args, network, pretty) == Envelope([Text(pretty(Arr(records)))]);
  }
}
