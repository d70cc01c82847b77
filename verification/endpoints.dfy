/**
  The endpoint resolver (src/models.rs:170-357): a stored endpoint definition
  turns a resource locator into the backend URL by plain concatenation onto its
  base URL. The two deployments share every template except the snapshot one.
*/
module Endpoints {

  /** A "General" deployment: every resource hangs directly under the base URL. */
  datatype GeneralEndpoint = GeneralEndpoint(baseUrl: string) {
    function Metadata(): string { baseUrl + "/metadata" }
    function Rawdata(deviceId: string): string { baseUrl + "/device/" + deviceId + "/rawdata" }
    function Snapshot(deviceId: string, sensorId: string, snapshotId: string): string {
      baseUrl + "/device/" + deviceId + "/sensor/" + sensorId + "/snapshot/" + snapshotId
    }
    function BaseUrl(): string { baseUrl }
    function Kind(): string { "General" }
    function Device(deviceId: string): string { baseUrl + "/device/" + deviceId }
    function Sensor(deviceId: string, sensorId: string): string {
      baseUrl + "/device/" + deviceId + "/sensor/" + sensorId
    }
    function Active(deviceId: string): string { baseUrl + "/device/" + deviceId + "/active" }
    function ActiveSetting(deviceId: string): string {
      baseUrl + "/device/" + deviceId + "/active/setting"
    }
    function ActiveNotify(deviceId: string): string {
      baseUrl + "/device/" + deviceId + "/active/notify"
    }
  }

  /** An "Edge" deployment: like General, but snapshots live under an extra `/snapshot` segment. */
  datatype EdgeEndpoint = EdgeEndpoint(baseUrl: string) {
    function Sensor(deviceId: string, sensorId: string): string {
      baseUrl + "/device/" + deviceId + "/sensor/" + sensorId
    }
    function Metadata(): string { baseUrl + "/metadata" }
    function Rawdata(deviceId: string): string { baseUrl + "/device/" + deviceId + "/rawdata" }
    function Snapshot(deviceId: string, sensorId: string, snapshotId: string): string {
      baseUrl + "/snapshot/device/" + deviceId + "/sensor/" + sensorId + "/snapshot/" + snapshotId
    }
    function BaseUrl(): string { baseUrl }
    function Kind(): string { "Edge" }
    function Device(deviceId: string): string { baseUrl + "/device/" + deviceId }
    function ActiveNotify(deviceId: string): string {
      baseUrl + "/device/" + deviceId + "/active/notify"
    }
    function ActiveSetting(deviceId: string): string {
      baseUrl + "/device/" + deviceId + "/active/setting"
    }
    function Active(deviceId: string): string { baseUrl + "/device/" + deviceId + "/active" }
  }

  /** The closed set of deployments; every operation dispatches to the wrapped variant. */
  datatype Endpoint = General(general: GeneralEndpoint) | Edge(edge: EdgeEndpoint) {
    function Metadata(): string {
      match this
      case General(g) => g.Metadata()
      case Edge(e) => e.Metadata()
    }
    function Rawdata(deviceId: string): string {
      match this
      case General(g) => g.Rawdata(deviceId)
      case Edge(e) => e.Rawdata(deviceId)
    }
    function Snapshot(deviceId: string, sensorId: string, snapshotId: string): string {
      match this
      case General(g) => g.Snapshot(deviceId, sensorId, snapshotId)
      case Edge(e) => e.Snapshot(deviceId, sensorId, snapshotId)
    }
    function BaseUrl(): string {
      match this
      case General(g) => g.BaseUrl()
      case Edge(e) => e.BaseUrl()
    }
    function Kind(): string {
      match this
      case General(g) => g.Kind()
      case Edge(e) => e.Kind()
    }
    function Device(deviceId: string): string {
      match this
      case General(g) => g.Device(deviceId)
      case Edge(e) => e.Device(deviceId)
    }
    function Sensor(deviceId: string, sensorId: string): string {
      match this
      case General(g) => g.Sensor(deviceId, sensorId)
      case Edge(e) => e.Sensor(deviceId, sensorId)
    }
    function ActiveNotify(deviceId: string): string {
      match this
      case General(g) => g.ActiveNotify(deviceId)
      case Edge(e) => e.ActiveNotify(deviceId)
    }
    function ActiveSetting(deviceId: string): string {
      match this
      case General(g) => g.ActiveSetting(deviceId)
      case Edge(e) => e.ActiveSetting(deviceId)
    }
    function Active(deviceId: string): string {
      match this
      case General(g) => g.Active(deviceId)
      case Edge(e) => e.Active(deviceId)
    }
  }

  /** Both deployments over the same base URL. */
  function GeneralOf(baseUrl: string): Endpoint { General(GeneralEndpoint(baseUrl)) }
  function EdgeOf(baseUrl: string): Endpoint { Edge(EdgeEndpoint(baseUrl)) }

  /** The wrapper adds nothing: each operation is the wrapped variant's own. */
  lemma DelegatesToVariant(g: GeneralEndpoint, e: EdgeEndpoint, d: string, s: string, i: string)
    ensures General(g).Metadata() == g.Metadata() && Edge(e).Metadata() == e.Metadata()
    ensures General(g).Rawdata(d) == g.Rawdata(d) && Edge(e).Rawdata(d) == e.Rawdata(d)
    ensures General(g).Snapshot(d, s, i) == g.Snapshot(d, s, i)
    ensures Edge(e).Snapshot(d, s, i) == e.Snapshot(d, s, i)
    ensures General(g).BaseUrl() == g.BaseUrl() && Edge(e).BaseUrl() == e.BaseUrl()
    ensures General(g).Kind() == g.Kind() && Edge(e).Kind() == e.Kind()
    ensures General(g).Device(d) == g.Device(d) && Edge(e).Device(d) == e.Device(d)
    ensures General(g).Sensor(d, s) == g.Sensor(d, s) && Edge(e).Sensor(d, s) == e.Sensor(d, s)
    ensures General(g).Active(d) == g.Active(d) && Edge(e).Active(d) == e.Active(d)
    ensures General(g).ActiveSetting(d) == g.ActiveSetting(d)
    ensures Edge(e).ActiveSetting(d) == e.ActiveSetting(d)
    ensures General(g).ActiveNotify(d) == g.ActiveNotify(d)
    ensures Edge(e).ActiveNotify(d) == e.ActiveNotify(d)
  {
  }

  /** Over one base URL the two deployments agree on every URL except the snapshot one. */
  lemma VariantsShareTemplates(baseUrl: string, d: string, s: string)
    ensures GeneralOf(baseUrl).Metadata() == EdgeOf(baseUrl).Metadata()
    ensures GeneralOf(baseUrl).Rawdata(d) == EdgeOf(baseUrl).Rawdata(d)
    ensures GeneralOf(baseUrl).Device(d) == EdgeOf(baseUrl).Device(d)
    ensures GeneralOf(baseUrl).Sensor(d, s) == EdgeOf(baseUrl).Sensor(d, s)
    ensures GeneralOf(baseUrl).Active(d) == EdgeOf(baseUrl).Active(d)
    ensures GeneralOf(baseUrl).ActiveSetting(d) == EdgeOf(baseUrl).ActiveSetting(d)
    ensures GeneralOf(baseUrl).ActiveNotify(d) == EdgeOf(baseUrl).ActiveNotify(d)
  {
  }

  /** The metadata and raw-data URLs are fixed templates over the base URL, for either deployment. */
  lemma FixedTemplates(ep: Endpoint, d: string)
    ensures ep.Metadata() == ep.BaseUrl() + "/metadata"
    ensures ep.Rawdata(d) == ep.BaseUrl() + "/device/" + d + "/rawdata"
    ensures ep.Device(d) == ep.BaseUrl() + "/device/" + d
    ensures ep.Active(d) == ep.BaseUrl() + "/device/" + d + "/active"
  {
  }

  /**
    An Edge snapshot URL is the General snapshot URL over the base URL with
    `/snapshot` appended; the two differ for every input.
  */
  lemma EdgeSnapshotNestsGeneral(baseUrl: string, d: string, s: string, i: string)
    ensures EdgeOf(baseUrl).Snapshot(d, s, i) == GeneralOf(baseUrl + "/snapshot").Snapshot(d, s, i)
    ensures |EdgeOf(baseUrl).Snapshot(d, s, i)| == |GeneralOf(baseUrl).Snapshot(d, s, i)| + |"/snapshot"|
    ensures EdgeOf(baseUrl).Snapshot(d, s, i) != GeneralOf(baseUrl).Snapshot(d, s, i)
  {
  }

  /** URLs nest: a sensor sits under its device, the active-status family under `active`. */
  lemma UrlNesting(ep: Endpoint, d: string, s: string, i: string)
    ensures ep.Sensor(d, s) == ep.Device(d) + "/sensor/" + s
    ensures ep.Rawdata(d) == ep.Device(d) + "/rawdata"
    ensures ep.Active(d) == ep.Device(d) + "/active"
    ensures ep.ActiveSetting(d) == ep.Active(d) + "/setting"
    ensures ep.ActiveNotify(d) == ep.Active(d) + "/notify"
    ensures ep.General? ==> ep.Snapshot(d, s, i) == ep.Sensor(d, s) + "/snapshot/" + i
  {
  }

  /**
    `baseurl()` hands back the stored base URL untouched, and `kind()` names the
    variant, so (kind, base URL) determines the endpoint.
  */
  lemma KindAndBaseUrl(ep: Endpoint)
    ensures ep.BaseUrl() == (if ep.General? then ep.general.baseUrl else ep.edge.baseUrl)
    ensures ep.Kind() == "General" <==> ep.General?
    ensures ep.Kind() == "Edge" <==> ep.Edge?
    ensures ep.Kind() in {"General", "Edge"}
  {
  }

  /** Distinct device ids give distinct device URLs under one endpoint. */
  lemma DeviceUrlInjective(ep: Endpoint, d1: string, d2: string)
    requires ep.Device(d1) == ep.Device(d2)
    ensures d1 == d2
  {
    var prefix := ep.BaseUrl() + "/device/";
    FixedTemplates(ep, d1);
    FixedTemplates(ep, d2);
    assert ep.Device(d1)[|prefix|..] == d1;
    assert ep.Device(d2)[|prefix|..] == d2;
  }
}
