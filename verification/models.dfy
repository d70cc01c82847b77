/**
  The records the dashboard exchanges with a telemetry backend (src/models.rs).
  src/views/sensor.rs:22-111 declares its own copies of SensorType, Attribute,
  Sensor, EditSensor, Device, EditDevice, RawData and SensorWithData; the
  src/models.rs copies are the ones modelled here. The only difference that shows
  is `RawData.time`: the join decodes into the src/views/sensor.rs copy, which has
  no such field, and nothing in the model reads it. The `f64`
  coordinates of a device are carried as opaque `real`s: nothing computes on them.
*/
module Models {
  import opened Wrappers

  datatype SensorType = Gauge | Text | Switch | Snapshot

  /** `#[default]` on `SensorType`. */
  function DefaultSensorType(): SensorType { Gauge }

  datatype Attribute = Attribute(key: string, value: string)

  datatype Sensor = Sensor(
    id: string,
    name: string,
    desc: Option<string>,
    kind: SensorType,
    uri: Option<string>,
    formula: Option<string>,
    attributes: Option<seq<Attribute>>)

  datatype Device = Device(
    id: string,
    name: string,
    desc: Option<string>,
    kind: string,
    uri: Option<string>,
    lat: Option<real>,
    lon: Option<real>,
    attributes: Option<seq<Attribute>>,
    sensors: Option<seq<Sensor>>)

  /** The partial-update body for a sensor: absent optionals are not serialised. */
  datatype EditSensor = EditSensor(
    name: string,
    desc: Option<string>,
    kind: SensorType,
    uri: Option<string>,
    formula: Option<string>,
    attributes: Option<seq<Attribute>>)

  /** The partial-update body for a device: absent optionals are not serialised. */
  datatype EditDevice = EditDevice(
    name: string,
    desc: Option<string>,
    kind: string,
    uri: Option<string>,
    lat: Option<real>,
    lon: Option<real>,
    attributes: Option<seq<Attribute>>)

  /** The latest reading of one sensor: `id` is the sensor id, `value` its ordered tokens. */
  datatype RawData = RawData(id: string, deviceId: string, value: seq<string>, time: Option<string>)

  datatype SensorWithData = SensorWithData(sensor: Sensor, data: Option<RawData>)

  datatype ActiveStatus = Unset | Start | Online | Offline | Stop | Abnormal {

    /** The `Display` text of a status. */
    function Label(): string {
      match this
      case Unset => "Unset"
      case Start => "Start"
      case Online => "Online"
      case Offline => "Offline"
      case Stop => "Stop"
      case Abnormal => "Abnormal"
    }
  }

  /** `#[default]` on `ActiveStatus`. */
  function DefaultActiveStatus(): ActiveStatus { Unset }

  /** The six statuses, in declaration order. */
  const AllStatuses: seq<ActiveStatus> := [Unset, Start, Online, Offline, Stop, Abnormal]

  /**
    The two enum defaults; every status is listed once, and the labels tell the
    statuses apart.
  */
  lemma ActiveStatusLabels()
    ensures DefaultSensorType() == Gauge
    ensures DefaultActiveStatus() == Unset
    ensures forall a: ActiveStatus :: a in AllStatuses
    ensures forall i, j :: 0 <= i < j < |AllStatuses| ==> AllStatuses[i] != AllStatuses[j]
    ensures forall a: ActiveStatus, b: ActiveStatus :: a.Label() == b.Label() ==> a == b
    ensures Unset.Label() == "Unset" && Start.Label() == "Start" && Online.Label() == "Online"
    ensures Offline.Label() == "Offline" && Stop.Label() == "Stop" && Abnormal.Label() == "Abnormal"
  {
    forall a: ActiveStatus
      ensures a in AllStatuses
    {
      match a
      case Unset => assert AllStatuses[0] == a;
      case Start => assert AllStatuses[1] == a;
      case Online => assert AllStatuses[2] == a;
      case Offline => assert AllStatuses[3] == a;
      case Stop => assert AllStatuses[4] == a;
      case Abnormal => assert AllStatuses[5] == a;
    }
  }

  /** A project pairs a backend access key with the name of an endpoint. */
  datatype Project = Project(projectKey: string, endpointKey: string)
}
