/**
  The sensor grid of one device (SensorView3 and SensorPanel3 in
  src/views/sensor.rs:525-657): the raw-data request, the join of the device's
  sensors with the returned readings, the text a panel shows, and the rule that
  decides whether a reading names a snapshot image to fetch.
*/
module SensorData {
  import opened Wrappers
  import opened Models
  import opened Endpoints
  import opened Effects

  /** The GET that returns the latest readings of every sensor of `device`. */
  function RawdataRequest(endpoint: Endpoint, project: Project, device: Device): (r: Request)
    ensures r.verb == Get && r.ck == project.projectKey
    ensures r.url == endpoint.Device(device.id) + "/rawdata"
  {
    Request(Get, endpoint.Rawdata(device.id), project.projectKey)
  }

  /** `i` is the position of the last reading with id `id`. */
  ghost predicate IsLastWithId(raw: seq<RawData>, id: string, i: int) {
    0 <= i < |raw| && raw[i].id == id && forall j :: i < j < |raw| ==> raw[j].id != id
  }

  /** The reading with id `id` that survives the join: the last one the backend sent. */
  function LastReading(raw: seq<RawData>, id: string): (r: Option<RawData>)
    ensures r.None? <==> forall j :: 0 <= j < |raw| ==> raw[j].id != id
    ensures r.Some? ==> exists i :: IsLastWithId(raw, id, i) && raw[i] == r.value
    decreases |raw|
  {
    if |raw| == 0 then None
    else if raw[|raw| - 1].id == id then
      assert IsLastWithId(raw, id, |raw| - 1);
      Some(raw[|raw| - 1])
    else
      var r := LastReading(raw[..|raw| - 1], id);
      if r.Some? then
        assert exists i :: IsLastWithId(raw, id, i) && raw[i] == r.value by {
          var i :| IsLastWithId(raw[..|raw| - 1], id, i) && raw[..|raw| - 1][i] == r.value;
          assert IsLastWithId(raw, id, i);
        }
        r
      else
        r
  }

  function Lookup(m: map<string, RawData>, id: string): Option<RawData> {
    if id in m then Some(m[id]) else None
  }

  /**
    The hash map built from the readings in arrival order: a later reading with the
    same id replaces an earlier one.
  */
  function IndexById(raw: seq<RawData>): (m: map<string, RawData>)
    ensures forall i :: 0 <= i < |raw| ==> raw[i].id in m
    ensures forall id :: id in m ==> m[id].id == id
    ensures forall id :: Lookup(m, id) == LastReading(raw, id)
    decreases |raw|
  {
    if |raw| == 0 then map[]
    else
      var init := raw[..|raw| - 1];
      var last := raw[|raw| - 1];
      var m := IndexById(init)[last.id := last];
      m
  }

  /**
    The sensor list of the grid: one entry per sensor of the device (none when the
    device lists no sensors), in the device's order, each paired with its reading.
  */
  function Join(device: Device, raw: seq<RawData>): (out: seq<SensorWithData>)
    ensures |out| == |device.sensors.GetOr([])|
    ensures device.sensors.None? ==> out == []
    ensures forall i :: 0 <= i < |out| ==> out[i].sensor == device.sensors.GetOr([])[i]
    ensures forall i :: 0 <= i < |out| ==> out[i].data == LastReading(raw, out[i].sensor.id)
  {
    var sensors := device.sensors.GetOr([]);
    var index := IndexById(raw);
    seq(|sensors|, i requires 0 <= i < |sensors| => SensorWithData(sensors[i], Lookup(index, sensors[i].id)))
  }

  /** A joined reading always belongs to the sensor it is paired with. */
  lemma JoinMatchesIds(device: Device, raw: seq<RawData>)
    ensures forall sw :: sw in Join(device, raw) && sw.data.Some? ==> sw.data.value.id == sw.sensor.id
    ensures forall sw :: sw in Join(device, raw) && sw.data.Some? ==> sw.data.value in raw
  {
    var out := Join(device, raw);
    forall sw | sw in out && sw.data.Some?
      ensures sw.data.value.id == sw.sensor.id && sw.data.value in raw
    {
      var i :| IsLastWithId(raw, sw.sensor.id, i) && raw[i] == sw.data.value;
    }
  }

  /** One device with one gauge sensor and one matching reading. */
  lemma JoinScenario()
    ensures var s1 := Sensor("s1", "", None, Gauge, None, None, None);
      var d1 := Device("d1", "", None, "", None, None, None, None, Some([s1]));
      var r1 := RawData("s1", "d1", ["42"], None);
      Join(d1, [r1]) == [SensorWithData(s1, Some(r1))]
  {
    var s1 := Sensor("s1", "", None, Gauge, None, None, None);
    var d1 := Device("d1", "", None, "", None, None, None, None, Some([s1]));
    var r1 := RawData("s1", "d1", ["42"], None);
    assert [r1][..0] == [];
    assert LastReading([r1], "s1") == Some(r1);
  }

  /** Rust's `join(" ")`: the tokens with one space between neighbours. */
  function JoinTokens(tokens: seq<string>): string
    decreases |tokens|
  {
    if |tokens| == 0 then ""
    else if |tokens| == 1 then tokens[0]
    else tokens[0] + " " + JoinTokens(tokens[1..])
  }

  /** Splitting at every space, as Rust's `split(' ')` does; the empty string is one empty piece. */
  function SplitOnSpace(s: string): (pieces: seq<string>)
    ensures |pieces| >= 1
    decreases |s|
  {
    if |s| == 0 then [""]
    else
      var rest := SplitOnSpace(s[1..]);
      if s[0] == ' ' then [""] + rest else [[s[0]] + rest[0]] + rest[1..]
  }

  lemma {:induction false} SplitWord(t: string)
    requires ' ' !in t
    ensures SplitOnSpace(t) == [t]
    decreases |t|
  {
    if |t| > 0 {
      SplitWord(t[1..]);
      assert [t[0]] + t[1..] == t;
    }
  }

  lemma {:induction false} SplitAfterWord(t: string, u: string)
    requires ' ' !in t
    ensures SplitOnSpace(t + " " + u) == [t] + SplitOnSpace(u)
    decreases |t|
  {
    var s := t + " " + u;
    if |t| == 0 {
      assert s[1..] == u;
    } else {
      assert s[1..] == t[1..] + " " + u;
      SplitAfterWord(t[1..], u);
      assert [t[0]] + t[1..] == t;
    }
  }

  /**
    For a reading with at least one token, none holding a space, splitting the
    shown value at spaces gives back the tokens. An empty token list is the
    exception: it shows the same "" as `[""]` (see `EmptyReadingsLookAlike`).
  */
  lemma {:induction false} JoinTokensRoundTrip(tokens: seq<string>)
    requires |tokens| > 0
    requires forall k :: 0 <= k < |tokens| ==> ' ' !in tokens[k]
    ensures SplitOnSpace(JoinTokens(tokens)) == tokens
    decreases |tokens|
  {
    if |tokens| == 1 {
      SplitWord(tokens[0]);
    } else {
      JoinTokensRoundTrip(tokens[1..]);
      SplitAfterWord(tokens[0], JoinTokens(tokens[1..]));
      assert [tokens[0]] + tokens[1..] == tokens;
    }
  }

  /** The text a sensor panel shows: the reading's tokens joined by spaces, or nothing. */
  function ShownValue(data: Option<RawData>): (v: string)
    ensures data.None? ==> v == ""
    ensures data.Some? && |data.value.value| == 1 ==> v == data.value.value[0]
  {
    match data
    case None => ""
    case Some(d) => JoinTokens(d.value)
  }

  /**
    The panel cannot tell a missing reading from an empty one: no reading, a
    reading with no tokens and a reading with one empty token all show "".
  */
  lemma EmptyReadingsLookAlike(id: string, deviceId: string, time: Option<string>)
    ensures ShownValue(None) == ""
    ensures ShownValue(Some(RawData(id, deviceId, [], time))) == ""
    ensures ShownValue(Some(RawData(id, deviceId, [""], time))) == ""
  {
  }

  /** Characters that precede the snapshot id in a snapshot sensor's value. */
  const SnapshotIdOffset: nat := 11

  const NotASnapshot: string := "Not a snapshot"

  /** The leading text of the image source the panel builds from the fetched bytes. */
  const JpegDataUriPrefix: string := "data:image/jpeg;base64,"

  /**
    The snapshot fetch a panel issues: only for a snapshot sensor whose shown value
    is longer than the offset, naming the id that follows the offset.
  */
  function SnapshotRequest(endpoint: Endpoint, project: Project, device: Device, sensor: Sensor, value: string): (r: Result<Request, string>)
    ensures r.Ok? <==> sensor.kind == Snapshot && |value| > SnapshotIdOffset
    ensures r.Err? ==> r.error == NotASnapshot
    ensures r.Ok? ==> r.value.verb == Get && r.value.ck == project.projectKey
    ensures r.Ok? ==>
              exists id :: value == value[..SnapshotIdOffset] + id && r.value.url == endpoint.Snapshot(device.id, sensor.id, id)
  {
    if sensor.kind == Snapshot && |value| > SnapshotIdOffset then
      var id := value[SnapshotIdOffset..];
      assert value == value[..SnapshotIdOffset] + id;
      Ok(Request(Get, endpoint.Snapshot(device.id, sensor.id, id), project.projectKey))
    else
      Err(NotASnapshot)
  }

  /**
    The image resource once it settles: the request's own refusal, the transport's
    error, or the fetched bytes (given already base64-encoded) as a JPEG data URI.
  */
  function SnapshotImage(request: Result<Request, string>, response: Result<string, string>): (r: Result<string, string>)
    ensures r.Ok? <==> request.Ok? && response.Ok?
    ensures r.Ok? ==> r.value == JpegDataUriPrefix + response.value
    ensures request.Err? ==> r == Err(request.error)
  {
    match request
    case Err(e) => Err(e)
    case Ok(_) =>
      match response
      case Err(e) => Err(e)
      case Ok(encoded) => Ok(JpegDataUriPrefix + encoded)
  }

  datatype PanelBody = ShowImage(src: string) | ShowText(value: string)

  /** The panel shows the image once it has loaded, and the text value otherwise. */
  function Body(image: Option<Result<string, string>>, value: string): (b: PanelBody)
    ensures b.ShowImage? <==> image.Some? && image.value.Ok?
    ensures b.ShowImage? ==> b.src == image.value.value
    ensures b.ShowText? ==> b.value == value
  {
    match image
    case Some(Ok(src)) => ShowImage(src)
    case _ => ShowText(value)
  }

  /**
    A panel shows an image only for a snapshot sensor whose value is long enough
    and whose image fetch succeeded; every other case, failure included, falls back
    to the text value.
  */
  lemma ImageOnlyForSnapshots(endpoint: Endpoint, project: Project, device: Device, sw: SensorWithData, response: Result<string, string>)
    ensures var value := ShownValue(sw.data);
      var b := Body(Some(SnapshotImage(SnapshotRequest(endpoint, project, device, sw.sensor, value), response)), value);
      && (b.ShowImage? <==> sw.sensor.kind == Snapshot && |value| > SnapshotIdOffset && response.Ok?)
      && (b.ShowImage? ==> b.src[..|JpegDataUriPrefix|] == JpegDataUriPrefix)
      && (b.ShowText? ==> b.value == value)
  {
  }

  /** With one token, the snapshot id is that token past the offset. */
  lemma SnapshotIdOfSingleToken(endpoint: Endpoint, project: Project, device: Device, sensor: Sensor, data: RawData)
    requires sensor.kind == Snapshot && |data.value| == 1 && |data.value[0]| > SnapshotIdOffset
    ensures SnapshotRequest(endpoint, project, device, sensor, ShownValue(Some(data)))
      == Ok(Request(Get, endpoint.Snapshot(device.id, sensor.id, data.value[0][SnapshotIdOffset..]), project.projectKey))
  {
  }
}
