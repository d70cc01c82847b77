/**
  The navigation state of the device page (src/views/sensor.rs:240-302): a view
  mode plus the ids of the selected device and sensor, changed only by the five
  store methods and by the reset that runs when the page's project changes.
*/
module Navigation {
  import opened Wrappers

  datatype ViewStatus = Device | DeviceAttr | Sensor | SensorAttr

  datatype PageContext = PageContext(
    viewStatus: ViewStatus,
    selectedDevice: Option<string>,
    selectedSensor: Option<string>)

  /** The state the page store starts in. */
  const Initial: PageContext := PageContext(Device, None, None)

  function BackToDevice(c: PageContext): PageContext {
    c.(selectedDevice := None, selectedSensor := None, viewStatus := Device)
  }

  function ViewSensors(c: PageContext, deviceId: string): PageContext {
    c.(selectedDevice := Some(deviceId), viewStatus := Sensor)
  }

  function ViewSensorAttr(c: PageContext, sensorId: string): PageContext {
    c.(selectedSensor := Some(sensorId), viewStatus := SensorAttr)
  }

  function BackToSensors(c: PageContext): PageContext {
    c.(selectedSensor := None, viewStatus := Sensor)
  }

  function ViewDeviceAttr(c: PageContext, deviceId: string): PageContext {
    c.(selectedDevice := Some(deviceId), viewStatus := DeviceAttr)
  }

  /**
    The reset the project memo performs whenever the project changes: back to the
    device list with no device selected. As written it leaves `selectedSensor` alone.
  */
  function ProjectSwitch(c: PageContext): PageContext {
    c.(viewStatus := Device, selectedDevice := None)
  }

  /** What each store method changes, and that it changes nothing else. */
  lemma TransitionEffects(c: PageContext, d: string, s: string)
    ensures BackToDevice(c) == Initial
    ensures ViewSensors(c, d).viewStatus == Sensor && ViewSensors(c, d).selectedDevice == Some(d)
    ensures ViewSensors(c, d).selectedSensor == c.selectedSensor
    ensures ViewDeviceAttr(c, d).viewStatus == DeviceAttr
    ensures ViewDeviceAttr(c, d).selectedDevice == Some(d)
    ensures ViewDeviceAttr(c, d).selectedSensor == c.selectedSensor
    ensures ViewSensorAttr(c, s).viewStatus == SensorAttr
    ensures ViewSensorAttr(c, s).selectedSensor == Some(s)
    ensures ViewSensorAttr(c, s).selectedDevice == c.selectedDevice
    ensures BackToSensors(c).viewStatus == Sensor && BackToSensors(c).selectedSensor == None
    ensures BackToSensors(c).selectedDevice == c.selectedDevice
    ensures ProjectSwitch(c).viewStatus == Device && ProjectSwitch(c).selectedDevice == None
    ensures ProjectSwitch(c).selectedSensor == c.selectedSensor
  {
  }

  /** A user action on the page, or the project changing underneath it. */
  datatype Action =
    | ViewSensorsOf(deviceId: string)
    | ViewDeviceAttrOf(deviceId: string)
    | ViewSensorAttrOf(sensorId: string)
    | BackToSensorList
    | BackToDeviceList
    | SwitchProject

  function Step(c: PageContext, a: Action): PageContext {
    match a
    case ViewSensorsOf(d) => ViewSensors(c, d)
    case ViewDeviceAttrOf(d) => ViewDeviceAttr(c, d)
    case ViewSensorAttrOf(s) => ViewSensorAttr(c, s)
    case BackToSensorList => BackToSensors(c)
    case BackToDeviceList => BackToDevice(c)
    case SwitchProject => ProjectSwitch(c)
  }

  /**
    Whether the page shows the control that fires `a` in view `c`: device cards
    (list view) offer the sensor and attribute views of a device; every view below
    the list shows the device header's back button; sensor cards offer a sensor's
    attribute view; the sensor-attribute view adds the sensor header's back button.
    A project change can happen in any view.
  */
  predicate Enabled(c: PageContext, a: Action) {
    match a
    case ViewSensorsOf(_) => c.viewStatus == Device
    case ViewDeviceAttrOf(_) => c.viewStatus == Device
    case ViewSensorAttrOf(_) => c.viewStatus == Sensor
    case BackToSensorList => c.viewStatus == SensorAttr
    case BackToDeviceList => c.viewStatus != Device
    case SwitchProject => true
  }

  /** The state after a sequence of actions, each fired from the state before it. */
  function Run(c: PageContext, actions: seq<Action>): PageContext
    decreases |actions|
  {
    if |actions| == 0 then c else Run(Step(c, actions[0]), actions[1..])
  }

  /** Every action of the sequence is offered by the view it is fired from. */
  predicate AllEnabled(c: PageContext, actions: seq<Action>)
    decreases |actions|
  {
    |actions| == 0 || (Enabled(c, actions[0]) && AllEnabled(Step(c, actions[0]), actions[1..]))
  }

  /**
    The full invariant: the list view has nothing selected, the
    sensor and device-attribute views have exactly a device, the sensor-attribute
    view has both.
  */
  predicate Consistent(c: PageContext) {
    match c.viewStatus
    case Device => c.selectedDevice.None? && c.selectedSensor.None?
    case DeviceAttr => c.selectedDevice.Some? && c.selectedSensor.None?
    case Sensor => c.selectedDevice.Some? && c.selectedSensor.None?
    case SensorAttr => c.selectedDevice.Some? && c.selectedSensor.Some?
  }

  /**
    The part of `Consistent` that survives the project reset: a device is selected
    exactly when the list view is not shown, and the sensor-attribute view has a sensor.
  */
  predicate Selected(c: PageContext) {
    && (c.viewStatus == Device <==> c.selectedDevice.None?)
    && (c.viewStatus == SensorAttr ==> c.selectedSensor.Some?)
  }

  lemma ConsistentIsSelected(c: PageContext)
    requires Consistent(c)
    ensures Selected(c)
  {
  }

  /** One offered store method keeps the full invariant. */
  lemma StepKeepsConsistent(c: PageContext, a: Action)
    requires Consistent(c) && Enabled(c, a) && a != SwitchProject
    ensures Consistent(Step(c, a))
  {
  }

  /** Any offered action, the project reset included, keeps `Selected`. */
  lemma StepKeepsSelected(c: PageContext, a: Action)
    requires Selected(c) && Enabled(c, a)
    ensures Selected(Step(c, a))
  {
  }

  /**
    Every state the store methods reach from the initial state is consistent, and
    so satisfies `Selected` as well.
  */
  lemma {:induction false} RunKeepsConsistent(c: PageContext, actions: seq<Action>)
    requires Consistent(c) && AllEnabled(c, actions)
    requires forall k :: 0 <= k < |actions| ==> actions[k] != SwitchProject
    ensures Consistent(Run(c, actions))
    ensures Selected(Run(c, actions))
    decreases |actions|
  {
    if |actions| > 0 {
      StepKeepsConsistent(c, actions[0]);
      RunKeepsConsistent(Step(c, actions[0]), actions[1..]);
    } else {
      ConsistentIsSelected(c);
    }
  }

  /** Every state reachable from the initial state, project resets included, satisfies `Selected`. */
  lemma {:induction false} RunKeepsSelected(c: PageContext, actions: seq<Action>)
    requires Selected(c) && AllEnabled(c, actions)
    ensures Selected(Run(c, actions))
    decreases |actions|
  {
    if |actions| > 0 {
      StepKeepsSelected(c, actions[0]);
      RunKeepsSelected(Step(c, actions[0]), actions[1..]);
    }
  }

  /**
    The project reset breaks the full invariant: switching project from the
    sensor-attribute view leaves the list view with a sensor still selected.
  */
  lemma ProjectSwitchKeepsStaleSensor()
    ensures var c := Run(Initial, [ViewSensorsOf("d"), ViewSensorAttrOf("s"), SwitchProject]);
      && AllEnabled(Initial, [ViewSensorsOf("d"), ViewSensorAttrOf("s"), SwitchProject])
      && c == PageContext(Device, None, Some("s"))
      && !Consistent(c)
  {
    var acts := [ViewSensorsOf("d"), ViewSensorAttrOf("s"), SwitchProject];
    var c1 := PageContext(Sensor, Some("d"), None);
    var c2 := PageContext(SensorAttr, Some("d"), Some("s"));
    assert acts[1..] == [ViewSensorAttrOf("s"), SwitchProject];
    assert acts[1..][1..] == [SwitchProject];
    assert Run(c2, [SwitchProject]) == PageContext(Device, None, Some("s")) by {
      assert [SwitchProject][1..] == [];
    }
    assert AllEnabled(c2, [SwitchProject]) by {
      assert [SwitchProject][1..] == [];
    }
  }

  /**
    The only offered action that enters the sensor-attribute view is a sensor card,
    and it selects that card's sensor.
  */
  lemma EnterSensorAttrSelects(c: PageContext, a: Action)
    requires Enabled(c, a) && Step(c, a).viewStatus == SensorAttr
    ensures a.ViewSensorAttrOf? && Step(c, a).selectedSensor == Some(a.sensorId)
  {
  }

  /**
    The stale sensor is never shown: whenever an offered run ends in the
    sensor-attribute view (and it must be a non-empty run when it started
    elsewhere, for instance in the list view a project reset leaves), its last
    action is a sensor card, and the sensor selected is that card's.
  */
  lemma {:induction false} StaleSensorOverwritten(c: PageContext, actions: seq<Action>)
    requires |actions| > 0 || c.viewStatus != SensorAttr
    requires AllEnabled(c, actions) && Run(c, actions).viewStatus == SensorAttr
    ensures |actions| > 0
    ensures actions[|actions| - 1].ViewSensorAttrOf?
    ensures Run(c, actions).selectedSensor == Some(actions[|actions| - 1].sensorId)
    decreases |actions|
  {
    var c1 := Step(c, actions[0]);
    if |actions| == 1 {
      assert actions[1..] == [];
      EnterSensorAttrSelects(c, actions[0]);
    } else {
      StaleSensorOverwritten(c1, actions[1..]);
      assert actions[1..][|actions[1..]| - 1] == actions[|actions| - 1];
    }
  }
}
