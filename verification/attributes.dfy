/**
  The attribute editor shared by the device and sensor attribute panels
  (DeviceAttrPanelImpl and SensorAttrPanelImpl in src/views/sensor.rs:698-815
  and 918-1034): a working copy of the entity's attribute list, its dirty flag,
  the partial-update body it saves and what happens when the save completes.
*/
module AttributeEditor {
  import opened Wrappers
  import opened Models
  import opened Endpoints
  import opened Effects

  /** The list the editor starts from and compares against: the entity's attributes, or none. */
  function Baseline(attributes: Option<seq<Attribute>>): seq<Attribute> {
    attributes.GetOr([])
  }

  /** The row the "Add" button appends. */
  const EmptyRow: Attribute := Attribute("", "")

  function Add(working: seq<Attribute>): (r: seq<Attribute>)
    ensures |r| == |working| + 1
    ensures r[..|working|] == working
    ensures r[|working|] == EmptyRow
  {
    working + [EmptyRow]
  }

  /** Editing the key field of row `i`. */
  function SetKey(working: seq<Attribute>, i: nat, key: string): (r: seq<Attribute>)
    requires i < |working|
    ensures |r| == |working|
    ensures r[i].key == key && r[i].value == working[i].value
    ensures forall j :: 0 <= j < |r| && j != i ==> r[j] == working[j]
  {
    working[i := working[i].(key := key)]
  }

  /** Editing the value field of row `i`. */
  function SetValue(working: seq<Attribute>, i: nat, value: string): (r: seq<Attribute>)
    requires i < |working|
    ensures |r| == |working|
    ensures r[i].key == working[i].key && r[i].value == value
    ensures forall j :: 0 <= j < |r| && j != i ==> r[j] == working[j]
  {
    working[i := working[i].(value := value)]
  }

  /** Deleting row `i`: the rows after it move up one place, in order. */
  function Remove(working: seq<Attribute>, i: nat): (r: seq<Attribute>)
    requires i < |working|
    ensures |r| == |working| - 1
    ensures forall j :: 0 <= j < i ==> r[j] == working[j]
    ensures forall j :: i <= j < |r| ==> r[j] == working[j + 1]
    ensures multiset(r) + multiset{working[i]} == multiset(working)
  {
    assert working == working[..i] + [working[i]] + working[i + 1..];
    working[..i] + working[i + 1..]
  }

  /** Whether the working copy differs from the entity's current attributes. */
  predicate IsDirty(working: seq<Attribute>, attributes: Option<seq<Attribute>>) {
    working != Baseline(attributes)
  }

  /** A freshly opened editor is clean; adding a row to a clean copy makes it dirty. */
  lemma DirtyFlag(attributes: Option<seq<Attribute>>)
    ensures !IsDirty(Baseline(attributes), attributes)
    ensures IsDirty(Add(Baseline(attributes)), attributes)
    ensures attributes.None? ==> Baseline(attributes) == []
  {
    assert |Add(Baseline(attributes))| != |Baseline(attributes)|;
  }

  /** Removing the row just added restores the copy; so does re-entering a field's old text. */
  lemma EditsUndo(working: seq<Attribute>, i: nat, key: string, value: string)
    requires i < |working|
    ensures Remove(Add(working), |working|) == working
    ensures SetKey(SetKey(working, i, key), i, working[i].key) == working
    ensures SetValue(SetValue(working, i, value), i, working[i].value) == working
  {
    var added := Add(working);
    assert Remove(added, |working|) == added[..|working|];
  }

  /** Edits to different fields, or to different rows, do not interfere. */
  lemma EditsCommute(working: seq<Attribute>, i: nat, j: nat, key: string, value: string)
    requires i < |working| && j < |working|
    ensures SetKey(SetValue(working, j, value), i, key) == SetValue(SetKey(working, i, key), j, value)
  {
  }

  /** The body of a device save: name and type copied, the working list, nothing else. */
  function DevicePayload(device: Device, working: seq<Attribute>): EditDevice {
    EditDevice(device.name, None, device.kind, None, None, None, Some(working))
  }

  /** The body of a sensor save: name and type copied, the working list, nothing else. */
  function SensorPayload(sensor: Sensor, working: seq<Attribute>): EditSensor {
    EditSensor(sensor.name, None, sensor.kind, None, None, Some(working))
  }

  /** The JSON fields a device body serialises to: absent optionals are skipped. */
  function DeviceFields(p: EditDevice): set<string> {
    {"name", "type"}
    + (if p.desc.Some? then {"desc"} else {})
    + (if p.uri.Some? then {"uri"} else {})
    + (if p.lat.Some? then {"lat"} else {})
    + (if p.lon.Some? then {"lon"} else {})
    + (if p.attributes.Some? then {"attributes"} else {})
  }

  /** The JSON fields a sensor body serialises to: absent optionals are skipped. */
  function SensorFields(p: EditSensor): set<string> {
    {"name", "type"}
    + (if p.desc.Some? then {"desc"} else {})
    + (if p.uri.Some? then {"uri"} else {})
    + (if p.formula.Some? then {"formula"} else {})
    + (if p.attributes.Some? then {"attributes"} else {})
  }

  /**
    A save is a partial update: it sends the entity's own name and type and the
    whole working list, and leaves every other field out of the body.
  */
  lemma PayloadIsPartialUpdate(device: Device, sensor: Sensor, working: seq<Attribute>)
    ensures var p := DevicePayload(device, working);
      p.name == device.name && p.kind == device.kind && p.attributes == Some(working)
    ensures var p := SensorPayload(sensor, working);
      p.name == sensor.name && p.kind == sensor.kind && p.attributes == Some(working)
    ensures DeviceFields(DevicePayload(device, working)) == {"name", "type", "attributes"}
    ensures SensorFields(SensorPayload(sensor, working)) == {"name", "type", "attributes"}
  {
  }

  /** The PUT that saves a device's attributes. */
  function DeviceSaveRequest(endpoint: Endpoint, project: Project, device: Device): Request {
    Request(Put, endpoint.Device(device.id), project.projectKey)
  }

  /** The PUT that saves a sensor's attributes. */
  function SensorSaveRequest(endpoint: Endpoint, project: Project, device: Device, sensor: Sensor): Request {
    Request(Put, endpoint.Sensor(device.id, sensor.id), project.projectKey)
  }

  /** Both saves write under the device's URL, keyed by the project; a sensor save goes one level deeper. */
  lemma SaveTargets(endpoint: Endpoint, project: Project, device: Device, sensor: Sensor)
    ensures DeviceSaveRequest(endpoint, project, device).url == endpoint.BaseUrl() + "/device/" + device.id
    ensures SensorSaveRequest(endpoint, project, device, sensor).url
         == DeviceSaveRequest(endpoint, project, device).url + "/sensor/" + sensor.id
    ensures DeviceSaveRequest(endpoint, project, device).verb == Put
    ensures DeviceSaveRequest(endpoint, project, device).ck == project.projectKey
    ensures SensorSaveRequest(endpoint, project, device, sensor).verb == Put
    ensures SensorSaveRequest(endpoint, project, device, sensor).ck == project.projectKey
  {
  }

  /** How the PUT ended: a response (whose body may not decode as text), or no response. */
  datatype SendOutcome = Responded(text: Option<string>) | SendFailed(message: string)

  /** What a finished save does: the toast it raises, and whether it reloads the metadata. */
  datatype SaveEffect = SaveEffect(toast: Toast, reloadMetadata: bool)

  const UndecodableResponse: string := "Error parse String"

  /**
    A response reloads the metadata and reports the server's text; a failed send
    reports the error and reloads nothing. The working copy is not an input: a
    failed save leaves the user's edits in place.
  */
  function AfterSave(outcome: SendOutcome): (e: SaveEffect)
    ensures e.reloadMetadata <==> outcome.Responded?
    ensures e.toast.Success? <==> outcome.Responded?
    ensures outcome.Responded? ==> e.toast == Success("Updated", Some(outcome.text.GetOr(UndecodableResponse)))
    ensures outcome.SendFailed? ==> e.toast == Error("Update Failed", Some(outcome.message))
  {
    match outcome
    case Responded(text) => SaveEffect(Success("Updated", Some(text.GetOr(UndecodableResponse))), true)
    case SendFailed(message) => SaveEffect(Error("Update Failed", Some(message)), false)
  }
}
