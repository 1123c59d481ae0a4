/** The six tools the server advertises, and the advertised table with each
    tool's description and input schema. */
module Tools {
  import opened Wrappers

  datatype Tool =
    | ListDevices
    | GetDeviceInfo
    | EnableDevice
    | DisableDevice
    | GetAcl
    | GetDnsSettings

  /** The wire name of each tool. */
  function Name(t: Tool): string {
    match t
    case ListDevices => "list_devices"
    case GetDeviceInfo => "get_device_info"
    case EnableDevice => "enable_device"
    case DisableDevice => "disable_device"
    case GetAcl => "get_acl"
    case GetDnsSettings => "get_dns_settings"
  }

  /** The dispatcher's `switch (name)`: the tool a request name selects, if any. */
  function ToolNamed(name: string): (r: Option<Tool>)
    ensures r.Some? ==> Name(r.value) == name
    ensures r.None? ==> forall t: Tool :: Name(t) != name
  {
    match name
    case "list_devices" => Some(ListDevices)
    case "get_device_info" => Some(GetDeviceInfo)
    case "enable_device" => Some(EnableDevice)
    case "disable_device" => Some(DisableDevice)
    case "get_acl" => Some(GetAcl)
    case "get_dns_settings" => Some(GetDnsSettings)
    case _ => None
  }

  /** Name and ToolNamed are inverse: a name selects exactly the tool it names. */
  lemma NameRoundTrip(t: Tool, name: string)
    ensures ToolNamed(name) == Some(t) <==> Name(t) == name
  {
  }

  /** The tools whose handler receives the `device_id` argument. */
  predicate TakesDeviceId(t: Tool) {
    t == GetDeviceInfo || t == EnableDevice || t == DisableDevice
  }

  datatype Property = Property(name: string, kind: string, description: string)

  /** A JSON schema of kind "object": its properties and the required ones. */
  datatype InputSchema = InputSchema(kind: string, properties: seq<Property>, required: seq<string>)

  datatype ToolDescriptor = ToolDescriptor(name: string, description: string, inputSchema: InputSchema)

  const NoArguments := InputSchema("object", [], [])

  function DeviceIdSchema(purpose: string): InputSchema {
    InputSchema("object", [Property("device_id", "string", purpose)], ["device_id"])
  }

  /** The tools in the order they are advertised. */
  const Advertised: seq<Tool> :=
    [ListDevices, GetDeviceInfo, EnableDevice, DisableDevice, GetAcl, GetDnsSettings]

  /** The answer to a tool-listing request. */
  function ToolTable(): (t: seq<ToolDescriptor>)
    ensures |t| == |Advertised|
    ensures forall i :: 0 <= i < |t| ==> t[i].name == Name(Advertised[i])
  {
    [ ToolDescriptor("list_devices", "List all devices in the Tailscale network", NoArguments),
      ToolDescriptor("get_device_info", "Get detailed information about a specific device",
        DeviceIdSchema("The device ID to get information for")),
      ToolDescriptor("enable_device", "Enable a device in the Tailscale network",
        DeviceIdSchema("The device ID to enable")),
      ToolDescriptor("disable_device", "Disable a device in the Tailscale network",
        DeviceIdSchema("The device ID to disable")),
      ToolDescriptor("get_acl", "Get the current ACL (Access Control List) configuration", NoArguments),
      ToolDescriptor("get_dns_settings", "Get DNS settings for the tailnet", NoArguments) ]
  }

  /** The advertised names are, in order, the names of `Advertised`, each
      selecting its own tool, and no name is advertised twice. */
  lemma ToolTableNames()
    ensures |ToolTable()| == |Advertised| == 6
    ensures forall i :: 0 <= i < 6 ==> ToolNamed(ToolTable()[i].name) == Some(Advertised[i])
    ensures forall i, j :: 0 <= i < j < 6 ==> ToolTable()[i].name != ToolTable()[j].name
  {
    forall i | 0 <= i < 6
      ensures ToolTable()[i].name == Name(Advertised[i])
    {
    }
  }

  /** The advertised names are exactly the names the dispatcher accepts. */
  lemma ToolTableMatchesDispatch()
    ensures forall name: string ::
      ToolNamed(name).Some? <==> exists i :: 0 <= i < |ToolTable()| && ToolTable()[i].name == name
  {
    ToolTableNames();
    forall name: string | ToolNamed(name).Some?
      ensures exists i :: 0 <= i < |ToolTable()| && ToolTable()[i].name == name
    {
      var t := ToolNamed(name).value;
      var i := match t
        case ListDevices => 0 case GetDeviceInfo => 1 case EnableDevice => 2
        case DisableDevice => 3 case GetAcl => 4 case GetDnsSettings => 5;
      assert ToolTable()[i].name == name;
    }
  }

  /** Each advertised schema is an object schema that declares `device_id`,
      as a required string, exactly when the tool's handler reads it, and
      declares nothing else. */
  lemma ToolTableSchemas()
    ensures |ToolTable()| == |Advertised|
    ensures forall i :: 0 <= i < |ToolTable()| ==>
      var schema := ToolTable()[i].inputSchema;
      && schema.kind == "object"
      && schema.required == (if TakesDeviceId(Advertised[i]) then ["device_id"] else [])
      && |schema.properties| == |schema.required|
      && forall k :: 0 <= k < |schema.properties| ==>
           schema.properties[k].name == "device_id" && schema.properties[k].kind == "string"
  {
  }
}
