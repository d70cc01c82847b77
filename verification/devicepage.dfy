/**
  The device page (DevicePage3 and the panels it chooses between, in
  src/views/sensor.rs:287-397, 490-523, 659-696 and 817-869): the project and
  endpoint it resolves, the metadata request it issues, the memoised current
  device and sensor, and which panel it renders.
*/
module DevicePage {
  import opened Wrappers
  import opened Models
  import opened Endpoints
  import opened Effects
  import Search
  import N = Navigation

  /** The project memo: the project stored under the page's name, if any. */
  function ProjectOf(projects: map<string, Project>, name: string): Option<Project> {
    if name in projects then Some(projects[name]) else None
  }

  /**
    The endpoint memo: the endpoint the project names. A dangling endpoint key is
    not an error here; it yields no endpoint.
  */
  function EndpointOf(endpoints: map<string, Endpoint>, project: Option<Project>): (r: Option<Endpoint>)
    ensures r.Some? <==> project.Some? && project.value.endpointKey in endpoints
    ensures r.Some? ==> r.value == endpoints[project.value.endpointKey]
  {
    match project
    case None => None
    case Some(p) => if p.endpointKey in endpoints then Some(endpoints[p.endpointKey]) else None
  }

  /**
    The metadata request the page issues: the missing project is reported before
    the missing endpoint; otherwise a GET of the endpoint's metadata URL keyed by
    the project key.
  */
  function MetadataRequest(project: Option<Project>, endpoint: Option<Endpoint>): (r: Result<Request, string>)
    ensures r.Ok? <==> project.Some? && endpoint.Some?
    ensures project.None? ==> r == Err("No project id")
    ensures project.Some? && endpoint.None? ==> r == Err("No Endpoint")
    ensures r.Ok? ==> r.value.verb == Get && r.value.ck == project.value.projectKey
    ensures r.Ok? ==> r.value.url == endpoint.value.BaseUrl() + "/metadata"
  {
    match project
    case None => Err("No project id")
    case Some(p) =>
      match endpoint
      case None => Err("No Endpoint")
      case Some(ep) => Ok(Request(Get, ep.Metadata(), p.projectKey))
  }

  /** The request for the project stored under `name`, resolving its endpoint by key. */
  function PageRequest(projects: map<string, Project>, endpoints: map<string, Endpoint>, name: string): Result<Request, string> {
    var project := ProjectOf(projects, name);
    MetadataRequest(project, EndpointOf(endpoints, project))
  }

  /**
    A project whose endpoint key names no stored endpoint is accepted when stored
    and surfaces only here, as the "No Endpoint" failure of the fetch.
  */
  lemma DanglingEndpointSurfacesLazily(projects: map<string, Project>, endpoints: map<string, Endpoint>, name: string)
    requires name in projects && projects[name].endpointKey !in endpoints
    ensures PageRequest(projects, endpoints, name) == Err("No Endpoint")
  {
  }

  /** `d` occurs in `devices` and no device before it has its id. */
  ghost predicate FirstDevice(devices: seq<Device>, d: Device) {
    exists i :: 0 <= i < |devices| && devices[i] == d && forall j :: 0 <= j < i ==> devices[j].id != d.id
  }

  /** `s` occurs in `sensors` and no sensor before it has its id. */
  ghost predicate FirstSensor(sensors: seq<Sensor>, s: Sensor) {
    exists i :: 0 <= i < |sensors| && sensors[i] == s && forall j :: 0 <= j < i ==> sensors[j].id != s.id
  }

  /**
    The current-device memo: the first fetched device whose id is the selected one
    (the empty id when nothing is selected); nothing while loading or after a failed load.
  */
  function CurrentDevice(ctx: N.PageContext, meta: Fetch<seq<Device>>): (r: Option<Device>)
    ensures r.Some? <==> (meta.Fetched? &&
      exists i :: 0 <= i < |meta.value| && meta.value[i].id == ctx.selectedDevice.GetOr(""))
    ensures r.Some? ==> r.value.id == ctx.selectedDevice.GetOr("")
    ensures r.Some? ==> FirstDevice(meta.value, r.value)
  {
    var selected := ctx.selectedDevice.GetOr("");
    match meta
    case Fetched(devices) => Search.Find(devices, (d: Device) => d.id == selected)
    case _ => None
  }

  /**
    The current-sensor memo: within the current device's sensor list, the first
    sensor whose id is the selected one (the empty id when nothing is selected).
  */
  function CurrentSensor(ctx: N.PageContext, meta: Fetch<seq<Device>>): (r: Option<Sensor>)
    ensures r.Some? <==> (CurrentDevice(ctx, meta).Some? && CurrentDevice(ctx, meta).value.sensors.Some? &&
      exists i :: 0 <= i < |CurrentDevice(ctx, meta).value.sensors.value| &&
        CurrentDevice(ctx, meta).value.sensors.value[i].id == ctx.selectedSensor.GetOr(""))
    ensures r.Some? ==> r.value.id == ctx.selectedSensor.GetOr("")
    ensures r.Some? ==> FirstSensor(CurrentDevice(ctx, meta).value.sensors.value, r.value)
  {
    var selected := ctx.selectedSensor.GetOr("");
    match CurrentDevice(ctx, meta)
    case None => None
    case Some(device) =>
      match device.sensors
      case None => None
      case Some(sensors) => Search.Find(sensors, (s: Sensor) => s.id == selected)
  }

  /** What the page body shows. */
  datatype Page =
    | Loading
    | LoadError
    | DeviceList(devices: seq<Device>)
    | DeviceAttrEditor(device: Device)
    | SensorGrid(device: Device)
    | SensorAttrEditor(device: Device, sensor: Sensor)
    /** A view whose project, endpoint or entity lookup missed: no editor or grid is shown. */
    | Missing

  /**
    The page body: the fetch state first, then the view mode; a view below the
    list shows its content only when the project, the endpoint and every entity it
    needs were found.
  */
  function Render(ctx: N.PageContext, meta: Fetch<seq<Device>>, project: Option<Project>, endpoint: Option<Endpoint>): (r: Page)
    ensures meta.Pending? <==> r.Loading?
    ensures meta.Failed? <==> r.LoadError?
    ensures r.DeviceList? <==> meta.Fetched? && ctx.viewStatus == N.Device
    ensures r.DeviceList? ==> r.devices == meta.value
    ensures r.DeviceAttrEditor? ==> ctx.viewStatus == N.DeviceAttr
    ensures r.SensorGrid? ==> ctx.viewStatus == N.Sensor
    ensures r.SensorAttrEditor? ==> ctx.viewStatus == N.SensorAttr
    ensures (r.DeviceAttrEditor? || r.SensorGrid? || r.SensorAttrEditor?) ==>
      && project.Some? && endpoint.Some?
      && r.device.id == ctx.selectedDevice.GetOr("") && r.device in meta.value
      && r.device == CurrentDevice(ctx, meta).value
    ensures r.SensorAttrEditor? ==>
      && r.sensor.id == ctx.selectedSensor.GetOr("")
      && r.device.sensors.Some? && r.sensor in r.device.sensors.value
      && r.sensor == CurrentSensor(ctx, meta).value
    ensures r.Missing? <==> (meta.Fetched? && ctx.viewStatus != N.Device &&
      (project.None? || endpoint.None? || CurrentDevice(ctx, meta).None? ||
       (ctx.viewStatus == N.SensorAttr && CurrentSensor(ctx, meta).None?)))
  {
    match meta
    case Pending => Loading
    case Failed(_) => LoadError
    case Fetched(devices) =>
      var device := CurrentDevice(ctx, meta);
      var sensor := CurrentSensor(ctx, meta);
      var found := project.Some? && endpoint.Some? && device.Some?;
      match ctx.viewStatus
      case Device => DeviceList(devices)
      case DeviceAttr => if found then DeviceAttrEditor(device.value) else Missing
      case Sensor => if found then SensorGrid(device.value) else Missing
      case SensorAttr =>
        if found && sensor.Some? then SensorAttrEditor(device.value, sensor.value) else Missing
  }

  /**
    In the states the store methods reach, every panel below the list looks up the
    device the user picked, never the empty placeholder id.
  */
  lemma PanelsUseRealSelection(ctx: N.PageContext, meta: Fetch<seq<Device>>, project: Option<Project>, endpoint: Option<Endpoint>)
    requires N.Selected(ctx)
    ensures var r := Render(ctx, meta, project, endpoint);
      (r.DeviceAttrEditor? || r.SensorGrid? || r.SensorAttrEditor?) ==>
        ctx.selectedDevice == Some(r.device.id)
    ensures var r := Render(ctx, meta, project, endpoint);
      r.SensorAttrEditor? ==> ctx.selectedSensor == Some(r.sensor.id)
  {
  }
}
