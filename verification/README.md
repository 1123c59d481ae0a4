# tailscale-mcp: the tool-call core

This project is a Dafny model of the deterministic core of `tailscale-mcp`. That program is a Model Context Protocol server. It exposes six tools over the Tailscale v2 HTTP API: `list_devices`, `get_device_info`, `enable_device`, `disable_device`, `get_acl` and `get_dns_settings`. The model covers these parts:

- the advertised tool table and the constructor's check of its two settings (`TAILNET`, `TAILSCALE_TOKEN`);
- the call handler. It selects a handler by tool name and turns every thrown error into the reply `Error: <message>`;
- `makeAPICall`, which builds the URL, headers, method and optional body, and turns a response that is not ok into a fixed error message;
- the six handlers: each one's endpoint, method and body, and each one's reply text. For `list_devices` the reply is a projection of the device list onto nine fields.

The network is a parameter: `fetch` becomes a function `Request -> FetchOutcome`. The pretty-printer `JSON.stringify(x, null, 2)` is also a parameter, `pretty: Json -> string`. Everything else is a pure function. `Dispatcher.HandleCall(config, name, args, network, pretty)` is the whole call path. `Dispatcher.PlanRequest(config, name, args)` is the request that path sends, or `None` when it fails before sending one.

Modules, leaves first:

- `Wrappers`: `Option` and `Result`. A `Failure` carries a thrown error's message. `MapOrThrow` is `map` with a callback that may throw.
- `Decimal`: how integers become text in template literals, with the inverse parser.
- `JsValues`: JSON values plus `undefined`. It covers property reads (reading from `undefined`/`null` throws), template-literal conversion, truthiness, and member lookup where the last duplicate key wins, as in `JSON.parse`.
- `Startup`: the constructor's settings check.
- `Tools`: tool names and the advertised table.
- `Api`: `makeAPICall`, split into its request half and its response half.
- `Routes`: the endpoint, method and body of each handler's API call, and the inverse that recovers the call from a request.
- `Devices`: the `list_devices` projection and its serialisation.
- `Dispatcher`: the call handler and the lemmas about whole calls.

Four facts about the code shape the model:

- The reply has no `isError` flag. A failure differs from a success only by its `Error: ` text.
- Nothing checks required arguments. A missing `device_id` is interpolated as `undefined`, so the request path becomes `/devices/undefined`. The id is not URL-encoded either.
- There is no subprocess backend.
- An error message is prefixed with `Error: ` only. It does not name the tool.

## Model

| member | source | states |
|---|---|---|
| `Startup.ConfigFromEnvironment` | src/index.js:25-30 | Construction succeeds exactly when both settings are set and non-empty, and then keeps them unchanged. Otherwise it fails with the fixed message naming both variables. |
| `Tools.ToolNamed` | src/index.js:111-125 | A name selects a tool only if it is that tool's name. A name matching no tool selects none. |
| `Tools.ToolTable` | src/index.js:36-105 | The tool listing has one entry per tool, in the order of `Advertised`, each under its tool's name. The schemas and the agreement with the dispatcher are stated by `Tools.ToolTableSchemas` and `Tools.ToolTableMatchesDispatch`. |
| `Tools.NameRoundTrip` | src/index.js:111-123 | Name and selection are inverse: `name` selects `t` exactly when `name` is `t`'s name. |
| `Tools.ToolTableNames` | src/index.js:36-105 | Six tools are advertised, in table order, with distinct names. Each advertised name selects its own tool. |
| `Tools.ToolTableMatchesDispatch` | src/index.js:36-123 | The advertised names are exactly the names the dispatcher accepts. |
| `Tools.ToolTableSchemas` | src/index.js:41-102 | Every input schema is an object schema. It declares `device_id` as a required string exactly for the three tools whose handler reads it, and declares nothing for the others. |
| `Api.BuildRequest` | src/index.js:140-153 | The URL splits into the API base, the tailnet and the endpoint. The method defaults to GET. The headers are the bearer token and the JSON content type. A body is attached exactly when one is supplied and it is truthy. |
| `Api.ReadResponse` | src/index.js:155-161 | A response yields its parsed body exactly when it is ok and the body parses. A rejected fetch fails with the fetch error's message. A response that is not ok fails with `API call failed: <status> <statusText>`, whatever its body. An unparsable body fails with the parse error's message. |
| `Api.MakeApiCall` | src/index.js:140-162 | `makeAPICall` consults the network once, on the built request. It returns the parsed body exactly when the response is ok and parses. A rejection fails with its message, a response that is not ok fails with `API call failed: <status> <statusText>`, and an ok response whose body does not parse fails with the parse error's message. |
| `Api.ApiFailureMessageDecodes` | src/index.js:157-159 | The status number in the failure message is a decimal numeral that reads back as the status. |
| `Decimal.DecimalRoundTrip` | src/index.js:158 | Rendering a status code in decimal and reading it back gives the same number. |
| `Decimal.NatToString` | src/index.js:158 | A status renders as a non-empty string of decimal digits with no leading zero, apart from `0` itself. `Decimal.DecimalRoundTrip` proves it reads back as the status. |
| `Decimal.NatToStringInjective` | src/index.js:158 | Different status codes render differently. |
| `Decimal.IntToString` | src/index.js:190 | A number interpolated into a path has a minus sign exactly when it is negative. After the sign come digits that read back as its magnitude. |
| `JsValues.Lookup` | src/index.js:161 | Looking up a parsed object's member finds nothing exactly when no member has that key. Otherwise it finds the value of the last member with that key. |
| `JsValues.Member` | src/index.js:115 | `v.key` throws exactly when `v` is `undefined` or `null`, with the TypeError text naming the receiver and the key. Only an object has a defined member. |
| `JsValues.JoinWith` | src/index.js:190 | Joining no parts gives the empty string, and one part gives that part. `JsValues.JoinWithSplits` states the general case, and `JsValues.ArrayText` ties it to the text of an array. |
| `JsValues.JoinWithSplits` | src/index.js:190 | Joining splits at any point: the two sides are joined separately and put together with one separator between them. |
| `JsValues.ToText` | src/index.js:190 | Converting a JSON value to text throws `Cannot convert object to primitive value` exactly when it is an object with a `toString` member, or an array with such an element at any depth. Otherwise `null` gives `null`, a boolean `true` or `false`, an integer its numeral with a sign when negative, a string itself, and any other object `[object Object]`. |
| `JsValues.ArrayText` | src/index.js:190 | An array whose elements all convert reads as the elements' texts joined by `,`, with `null` elements contributing empty text. |
| `JsValues.ArrayTextSplits` | src/index.js:190 | The text of an array splits at any point: it is the text of the first part, a `,`, and the text of the rest. |
| `JsValues.ArrayTextSingle` | src/index.js:190 | A one-element array reads as its element, except that a `null` element reads as the empty text. |
| `JsValues.TemplateString` | src/index.js:190 | `${v}` gives `undefined` for an absent value. For a defined value it gives the text `JsValues.ToText` gives: `null`, `true`/`false`, the numeral of an integer, a string unchanged, `[object Object]` for an object without `toString`. It throws `Cannot convert object to primitive value` exactly when the value has no primitive text. A non-negative integer's numeral reads back as the integer. |
| `Routes.RequestFor` | src/index.js:164-242 | Only enabling and disabling POST and carry a body, which is `{authorized: <flag>}`. The other four tools send a body-less GET. Every request carries the two fixed headers. |
| `Routes.CallOf` | src/index.js:164-242 | Each handler passes `makeAPICall` a method and a body exactly when it enables or disables. The endpoints are read back by `Routes.RoutingRoundTrip` and spelled out by the `Dispatcher.RoutingTable…` lemmas. |
| `Routes.RoutingRoundTrip` | src/index.js:164-242 | The URL string, method and body handed to `fetch` can be read back as the operation that produced them. The device id is recovered exactly, whatever text it is. |
| `Routes.RoutingInjective` | src/index.js:164-242 | Two different operations never hand `fetch` the same URL string, method and body. |
| `Devices.ReadFields` | src/index.js:167-177 | An object literal `{k: v.k, ...}` throws exactly when it has keys and `v` is `undefined` or `null`, with the first key's TypeError. Otherwise it has one entry per key, in order, each holding `v`'s value for that key. |
| `Devices.Summarize` | src/index.js:167-177 | The `map` callback throws exactly for a `null` device, with the TypeError for reading its `id`. `Devices.SummarizeReads` gives its entries for any other device. |
| `Wrappers.MapOrThrow` | src/index.js:167 | `map` with a callback that may throw succeeds exactly when the callback succeeds on every item, keeping count and order. Otherwise it fails with the error of the first item the callback throws on. |
| `Devices.ProjectDevices` | src/index.js:167-177 | Mapping the devices succeeds exactly when no device is `null`. On success the count and order are kept, and each record is that device's projection. On failure the error is the TypeError for reading `id` of `null`. |
| `Devices.DeviceList` | src/index.js:167 | `data.devices.map` runs exactly when `data` is an object whose `devices` member is an array. It throws the matching TypeError when `data` is `null`, when `devices` is absent and when `devices` is `null`. When `devices` is any other non-array value it throws `data.devices.map is not a function`. |
| `Devices.DropUndefined` | src/index.js:183 | Serialising a record keeps only defined members, each one a member of the record with its value. |
| `Devices.DropUndefinedSplits` | src/index.js:183 | Serialisation keeps order: a concatenation of records serialises as the concatenation of their serialisations. |
| `Devices.DropUndefinedKeepsDefined` | src/index.js:183 | Every defined member survives serialisation, in its place: after the serialised members before it and before those after it. |
| `Devices.LookupDropUndefined` | src/index.js:177-183 | In a serialised record with distinct keys, each key reads back as the record's value: a defined value survives and an undefined one is absent. |
| `Devices.SummarizeReads` | src/index.js:167-177 | A device that is not `null` projects to one entry per field, in order, each holding the device's own value for that field. |
| `Devices.ReadFieldsSerialised` | src/index.js:167-183 | Serialising the record `{k: v.k, ...}` gives, in key order, exactly the keys `v` has, each with `v`'s value. It is proved equal to `KeptFields`, a definition that reads the parsed object directly. |
| `Devices.SummaryJsonFields` | src/index.js:167-183 | A serialised device record is exactly the device's own members among the nine fields, in the order the fields are written. |
| `Devices.ReadFieldsReadBack` | src/index.js:167-183 | Serialising a record read with distinct keys gives an object that has only those keys, each reading back as the receiver's value for it. |
| `Devices.ProjectionReadsBack` | src/index.js:167-183 | A projection has only keys among the nine fields. Each field reads back as the device's own value for it. |
| `Dispatcher.DeviceIdText` | src/index.js:115-190 | Reading and interpolating `args.device_id` throws exactly when `args` is absent or `null`, or when `device_id` has no primitive text. The first two throw the read TypeError and the last throws the conversion TypeError. Otherwise it gives the template text of the member, which is `undefined` when the member is missing. |
| `Dispatcher.Resolve` | src/index.js:111-216 | A selected tool resolves to an operation of that tool. It fails exactly for a device tool whose `device_id` cannot be read or turned into text, and then with that error. |
| `Dispatcher.PlanRequest` | src/index.js:107-216 | A request is sent exactly when the name is a known tool and, for a device tool, `args.device_id` can be read and turned into text. |
| `Dispatcher.PlannedRequestIdentifiesTool` | src/index.js:107-125 | The planned request can be read back as an operation of the tool that was named. |
| `Dispatcher.Invoke` | src/index.js:110-126 | The `try` block fails with `Unknown tool: <name>` for a name no tool has. It fails whenever no request can be planned. When the planned request's response cannot be read, it fails with exactly that error. |
| `Dispatcher.SuccessText` | src/index.js:164-252 | Once its API call has returned, only `list_devices` can still throw. The other handlers always reply; their texts are stated by `Dispatcher.AuthorizeReply` and `Dispatcher.PrettyPrintedReply`. |
| `Dispatcher.DeviceListText` | src/index.js:164-187 | The `list_devices` reply text exists exactly when `data.devices` is an array with no `null` device. Otherwise it fails with the TypeError of `data.devices.map`, or with the one for reading `id` of `null`. |
| `Dispatcher.Normalize` | src/index.js:127-136 | The reply always has exactly one text item. It is the handler's text on success, and `Error: ` plus the message on failure. |
| `Dispatcher.HandleCall` | src/index.js:107-137 | Every call, whatever its name, arguments and network, replies with exactly one text item. On failure the text is `Error: ` followed by the thrown message, so no error escapes. |
| `Dispatcher.UnknownTool` | src/index.js:124-135 | A name missing from the advertised table gets exactly the one-item reply `Error: Unknown tool: <name>`, and no request is sent. |
| `Dispatcher.OnlyPlannedRequestMatters` | src/index.js:107-162 | The network is consulted only on the planned request. Two networks that answer it alike give the same reply. With no planned request the network plays no part. |
| `Dispatcher.RoutingTableFixed` | src/index.js:164-252 | `list_devices`, `get_acl` and `get_dns_settings` send a body-less GET of `<base><tailnet>/devices`, `/acl` and `/dns/preferences` with the two headers, whatever the arguments. |
| `Dispatcher.RoutingTableDeviceInfo` | src/index.js:189-190 | `get_device_info` sends a body-less GET of `<base><tailnet>/devices/<text of device_id>` with the two headers. When that text cannot be made it sends nothing. |
| `Dispatcher.RoutingTableEnable` | src/index.js:202-203 | `enable_device` POSTs `{authorized: true}` to `<base><tailnet>/devices/<text of device_id>/authorized` with the two headers. When that text cannot be made it sends nothing. |
| `Dispatcher.RoutingTableDisable` | src/index.js:215-216 | `disable_device` POSTs `{authorized: false}` to `<base><tailnet>/devices/<text of device_id>/authorized` with the two headers. When that text cannot be made it sends nothing. |
| `Dispatcher.StringDeviceId` | src/index.js:189-190 | A string `device_id` goes into the path verbatim. |
| `Dispatcher.MissingDeviceId` | src/index.js:189-190 | A missing `device_id` goes into the path as `undefined`, because nothing checks that it is present. |
| `Dispatcher.DeviceToolWithoutArguments` | src/index.js:108-136 | A device tool called without arguments replies with the TypeError for reading `device_id` of `undefined`, and sends no request. |
| `Dispatcher.UnconvertibleDeviceId` | src/index.js:107-216 | A device tool whose `device_id` is an object with a `toString` member, or an array holding one, replies exactly `Error: Cannot convert object to primitive value` and sends no request. |
| `Dispatcher.NonOkResponse` | src/index.js:155-159 | For every tool, a response that is not ok gives exactly `Error: API call failed: <status> <statusText>`. |
| `Dispatcher.TransportFailures` | src/index.js:155-161 | A rejected fetch, or an ok response whose body does not parse, gives `Error: ` and that error's message. |
| `Dispatcher.AuthorizeReply` | src/index.js:202-226 | When `device_id` has the text `id`, enabling and disabling POST for that device. On an ok response with any parsed body they reply exactly `Device <id> has been enabled` or `... disabled`. |
| `Dispatcher.PrettyPrintedReply` | src/index.js:189-252 | `get_device_info`, `get_acl` and `get_dns_settings` reply with exactly the pretty-printed response body when their request gets an ok response that parses. |
| `Dispatcher.ListDevicesReplyText` | src/index.js:164-187 | For an ok response whose `devices` array holds no `null`, the projection succeeds and the reply is the pretty-printed list of serialised records. |
| `Dispatcher.ListDevicesFailures` | src/index.js:107-187 | After an ok response, `list_devices` replies with `Error: ` and the TypeError it throws. That is `reading 'devices'` of `null` data, `reading 'map'` for a missing `devices`, `data.devices.map is not a function` for a non-array, and `reading 'id'` for a `null` device. |
| `Dispatcher.Records` | src/index.js:183 | The list handed to `JSON.stringify` has one object per projected device. `Dispatcher.RecordsProjectDevices` states each is exactly its device's projection. |
| `Dispatcher.RecordsProjectDevices` | src/index.js:167-183 | The serialised records match the devices one for one. Each record is exactly its device's members among the nine fields, in field order. |
| `Dispatcher.ListDevicesReply` | src/index.js:164-187 | A successful `list_devices` replies with the pretty-printed list of records. There is one record per device, in order. Each record is exactly the device's members among the nine fields, in the order the fields are written. |

## Left out

- The MCP SDK's `Server` and `StdioServerTransport`, `start`, `main`, the server's name and version, and `process.exit` are left out. They are transport and process handling in a library outside this model (src/index.js:3-23, 254-271).
- Reading `process.env` is left out. `Startup.ConfigFromEnvironment` takes the two settings as optional strings.
- `fetch` and the network are left out. The network is a function from the request to a `FetchOutcome`: a rejection message, or a response with an `ok` flag, a status, a status text and a body. The model takes `ok` as given; node-fetch derives it from the status (200-299), and that library is not part of this model.
- Parsing by `response.json()` is left out. The body is either a parsed `Json` value or the parse error's message.
- The text of `JSON.stringify(x, null, 2)` is left out. The formatter is the parameter `pretty`. The one rule of `JSON.stringify` the projection depends on is modelled: properties whose value is `undefined` are dropped. The request body is kept as the `Json` value that `JSON.stringify` would serialise.
- Floating-point numbers are left out. JSON numbers are integers, so `${x}` of a fractional number is not modelled.
- JsValues.TemplateString: an integer is rendered as its exact decimal numeral. JavaScript numbers are doubles. `JSON.parse` rounds integers beyond 2^53, and `${x}` writes integers of 10^21 and above in exponent form (`1e+21`). Neither is modelled.
- Decimal.IntToString: the same limit applies. The numeral is exact for every integer, where JavaScript's is exact only up to 2^53 and below 10^21.
- Devices.DropUndefined: its own contract says only that each serialised member is a defined member of the record. That every defined member is kept, in order, is stated by `Devices.DropUndefinedSplits` and `Devices.DropUndefinedKeepsDefined`.
- URL parsing inside `fetch` is left out. A request is the URL string handed to `fetch`, and the routing lemmas are about that string. `fetch` resolves `.` and `..` segments, starts a query at `?` and drops a `#` fragment. Because the handlers do not URL-encode `device_id`, an id such as `../acl` or `x#` reaches a different endpoint than its operation names. For example, `get_device_info` with `../acl` sends the same GET as `get_acl`.
- The wording of JavaScript TypeErrors comes from V8 in Node.js 16.9 and later, for example `Cannot read properties of undefined (reading 'device_id')`. Other engines word these messages differently. Only the message is kept.
- `JsValues.Member` gives a non-object value no properties. This holds for every property name the server reads (`device_id`, `devices`, the nine device fields). Indices, `length` and prototype members of strings and arrays are not modelled.
- The SDK's request validation is left out. The tool name is a string, and `args` is absent or an object. The model accepts any `JsValue` for `args`.
- `async`/`await` scheduling and concurrent calls are left out. Each call is one pure function of its inputs.
