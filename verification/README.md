# data-viewer: a Dafny model of the dashboard core

data-viewer is a browser dashboard for sensor telemetry backends. A user
registers *endpoints*, which are backend base URLs of one of two deployment
kinds, General or Edge. The user then groups devices under named *projects*,
each holding a project key and an endpoint name. Navigation runs through
Device → Sensor → Attribute views. This project models the pure logic under
that UI, as immutable datatypes and total functions:

- **Endpoint resolver** (`endpoints.dfy`, module `Endpoints`). The General and
  Edge endpoint types, and the `Endpoint` sum that delegates to them. Every URL
  template is plain concatenation onto the base URL. Edge differs only in its
  snapshot template.
- **Records** (`models.dfy`, module `Models`). Sensors, devices, raw readings,
  the partial-update bodies, `ActiveStatus` with its display labels, and `Project`.
- **Navigation state machine** (`navigation.dfy`, module `Navigation`). The page
  context (view mode, selected device, selected sensor), its five store methods,
  and the reset the project memo performs. `Enabled` records which view offers
  which control, so the invariant can be stated over the states users can reach.
- **Device page** (`devicepage.dfy`, module `DevicePage`). The project and
  endpoint memos and the metadata request. Also the memoised current device and
  current sensor over a pending, fetched or failed metadata load, and which
  panel the page renders.
- **Sensor grid** (`sensordata.dfy`, module `SensorData`). The raw-data request,
  the hash-join of a device's sensors with the readings by id (the last reading
  wins), the shown text (tokens joined by spaces), and the snapshot gate, which
  decides whether to fetch an image and under which id.
- **Attribute editor** (`attributes.dfy`, module `AttributeEditor`). The working
  copy (add, edit key, edit value, remove), the dirty flag, the partial-update
  bodies and PUT requests, and what a finished save does.
- **Directories** (`directory.dfy`, `endpointview.dfy`, `projectview.dfy`). The
  shared rule "add only under a fresh non-empty name, never overwrite" and the
  endpoint and project pages' dialog stores, submit handlers and delete handlers.
- Helpers: `wrappers.dfy` (Option/Result), `effects.dfy` (toasts, requests and
  fetch states as values), `search.dfy` (first-match search, Rust's `iter().find`).

Three properties of the code deserve stating up front:

- The project-switch reset (src/views/sensor.rs:299-302) sets the view to Device
  and clears the selected device, but not the selected sensor. So "the list view
  has nothing selected" fails after a switch
  (`Navigation.ProjectSwitchKeepsStaleSensor`). The current-sensor memo
  (src/views/sensor.rs:343-351) still searches under the stale id in every view,
  but the stale sensor is never shown: the sensor-attribute view, the only one
  that renders that memo, always holds the sensor its card just selected
  (`Navigation.StaleSensorOverwritten`).
- The snapshot gate (src/views/sensor.rs:598-603) tests the length of the whole
  shown value (`len() > 11`) and takes the id from character offset 11 of the
  space-joined text on. It reads an offset into that text, not a token.
- The full navigation invariant (`Navigation.Consistent`) is kept by every run of
  the store methods (`Navigation.RunKeepsConsistent`), but not by project
  switches. What every run keeps, switches included, is the weaker
  `Navigation.Selected` (`Navigation.RunKeepsSelected`).

## Model

| member | source | states |
|---|---|---|
| Models.ActiveStatusLabels | src/models.rs:8-10 | SensorType defaults to Gauge and ActiveStatus to Unset (src/models.rs:95-118); each status label is the variant's name and no two statuses share a label |
| Endpoints.DelegatesToVariant | src/models.rs:176-246 | every operation of the Endpoint sum returns exactly what the wrapped General or Edge endpoint returns |
| Endpoints.VariantsShareTemplates | src/models.rs:266-356 | over the same base URL, General and Edge give identical metadata, rawdata, device, sensor, active, active-setting and active-notify URLs |
| Endpoints.FixedTemplates | src/models.rs:267-272 | metadata is base + "/metadata" and rawdata(d) is base + "/device/" + d + "/rawdata" for either variant, base being what baseurl() returns |
| Endpoints.EdgeSnapshotNestsGeneral | src/models.rs:273-278 | an Edge snapshot URL equals the General snapshot URL over base + "/snapshot"; it is 9 characters longer, so the two never coincide |
| Endpoints.UrlNesting | src/models.rs:288-306 | sensor(d,s) extends device(d) by "/sensor/" + s; rawdata and active extend device(d); active-setting and active-notify extend active(d); a General snapshot extends sensor(d,s) |
| Endpoints.KindAndBaseUrl | src/models.rs:280-286 | baseurl() returns the stored base URL unchanged; kind() is "General" exactly for General and "Edge" exactly for Edge |
| Endpoints.DeviceUrlInjective | src/models.rs:288-290 | under one endpoint, equal device URLs imply equal device ids |
| Navigation.TransitionEffects | src/views/sensor.rs:255-285 | back_to_device yields (Device, none, none) from any state; view_sensors and view_device_attr set the device and their mode and keep the sensor; view_sensor_attr sets the sensor and keeps the device; back_to_sensors clears only the sensor; the project reset sets Device, clears the device and keeps the sensor |
| Navigation.StepKeepsConsistent | src/views/sensor.rs:240-285 | every store method a view offers keeps the full invariant: list view has no selection, sensor and device-attribute views have exactly a device, sensor-attribute view has both |
| Navigation.StepKeepsSelected | src/views/sensor.rs:299-302 | every offered action, the project reset included, keeps "a device is selected iff the view is not the list, and the sensor-attribute view has a sensor" |
| Navigation.RunKeepsConsistent | src/views/sensor.rs:240-297 | every state that offered store methods reach from a consistent state (such as the initial one) is consistent, and so satisfies the weaker invariant too |
| Navigation.RunKeepsSelected | src/views/sensor.rs:293-302 | every state reachable through offered actions, project resets included, keeps the weaker invariant |
| Navigation.ProjectSwitchKeepsStaleSensor | src/views/sensor.rs:299-302 | the offered run "view sensors d, view sensor attributes s, switch project" ends in the list view with sensor s still selected, which breaks the full invariant |
| Navigation.EnterSensorAttrSelects | src/views/sensor.rs:263-273 | the only offered action whose result is the sensor-attribute view is a sensor card, and it selects that card's sensor |
| Navigation.StaleSensorOverwritten | src/views/sensor.rs:263-302 | every offered run that ends in the sensor-attribute view, starting from any other view (the list view a project reset leaves included), ends with a sensor card, and the selected sensor is that card's, so a stale sensor is never shown (the memo may still search under it in other views, which render no sensor) |
| Search.Find | src/views/sensor.rs:334 | the result is the first element passing the test, and is absent exactly when no element passes |
| DevicePage.EndpointOf | src/views/sensor.rs:305-311 | an endpoint is found exactly when there is a project and its endpoint key is stored; it is the stored endpoint |
| DevicePage.MetadataRequest | src/views/sensor.rs:315-328 | no project gives "No project id"; a project without endpoint gives "No Endpoint"; otherwise a GET of base + "/metadata" carrying the project key |
| DevicePage.DanglingEndpointSurfacesLazily | src/views/sensor.rs:299-318 | a stored project whose endpoint key names no endpoint makes the page's metadata fetch fail with "No Endpoint" |
| DevicePage.CurrentDevice | src/views/sensor.rs:330-341 | the current device exists iff the metadata is fetched and holds a device with the selected id (the empty id when none is selected); it is the first such device |
| DevicePage.CurrentSensor | src/views/sensor.rs:343-351 | the current sensor exists iff the current device exists, lists sensors, and one has the selected id (empty when unset); it is the first such sensor |
| DevicePage.Render | src/views/sensor.rs:353-397 | pending metadata shows Loading, failed shows the load error, fetched shows the device list in Device mode; editors and the grid appear only when project, endpoint and the selected entities were found, and show exactly the current-device and current-sensor memo values (the first matches); a view whose project, endpoint or entity lookup missed shows no editor or grid |
| DevicePage.PanelsUseRealSelection | src/views/sensor.rs:330-351 | in states satisfying the navigation invariant, every panel shows the device (and sensor) actually selected, never one found under the empty placeholder id |
| SensorData.RawdataRequest | src/views/sensor.rs:537-544 | the raw-data fetch is a GET of device(id) + "/rawdata" carrying the project key |
| SensorData.LastReading | src/views/sensor.rs:545-546 | absent exactly when no reading has the id; otherwise the reading at the last position with that id |
| SensorData.IndexById | src/views/sensor.rs:545-546 | the id-keyed map built from the readings in order holds, for every id, the last reading with that id and nothing for other ids |
| SensorData.Join | src/views/sensor.rs:537-553 | the join has one entry per sensor of the device (none when the device lists no sensors), in the device's order; each is paired with the last reading of its id, or none |
| SensorData.JoinMatchesIds | src/views/sensor.rs:547-553 | every reading in the join came from the response and has the id of the sensor it is paired with |
| SensorData.JoinScenario | src/views/sensor.rs:545-553 | device d1 with gauge sensor s1 and reading (s1, d1, ["42"]) joins to the single pair (s1, that reading) |
| SensorData.JoinTokensRoundTrip | src/views/sensor.rs:590-591 | for a reading with at least one token, none holding a space, splitting the shown value at spaces gives back the token list |
| SensorData.EmptyReadingsLookAlike | src/views/sensor.rs:590-591 | no reading, a reading with no tokens and a reading with one empty token all show the empty text, so the panel cannot tell them apart |
| SensorData.ShownValue | src/views/sensor.rs:590-592 | a sensor without reading shows the empty text; a single-token reading shows that token |
| SensorData.SnapshotRequest | src/views/sensor.rs:596-616 | an image fetch is issued exactly for a Snapshot sensor whose value is longer than 11 characters; it GETs the endpoint's snapshot URL for the id that follows the first 11 characters, with the project key; every other case is "Not a snapshot" |
| SensorData.SnapshotImage | src/views/sensor.rs:605-615 | the image resource succeeds exactly when the fetch was issued and answered; its source is "data:image/jpeg;base64," followed by the encoded bytes |
| SensorData.Body | src/views/sensor.rs:636-648 | the panel shows the image exactly when the image resource succeeded, and the text value otherwise (pending, refused or failed) |
| SensorData.ImageOnlyForSnapshots | src/views/sensor.rs:590-648 | a panel shows an image iff its sensor is a Snapshot, its shown value is longer than 11 characters and the fetch succeeded; otherwise it shows the text value |
| SensorData.SnapshotIdOfSingleToken | src/views/sensor.rs:598-604 | for a one-token snapshot reading longer than 11 characters, the snapshot id is the token past character 11 |
| AttributeEditor.Add | src/views/sensor.rs:761-768 | appends exactly one empty key/value row and keeps every earlier row |
| AttributeEditor.SetKey | src/views/sensor.rs:786-788 | changes only the key of row i; its value and every other row are kept |
| AttributeEditor.SetValue | src/views/sensor.rs:795-797 | changes only the value of row i; its key and every other row are kept |
| AttributeEditor.Remove | src/views/sensor.rs:804-806 | deletes exactly row i: earlier rows stay in place, later rows move up one in order, and the multiset loses just that row |
| AttributeEditor.DirtyFlag | src/views/sensor.rs:706-707 | a freshly initialised copy (missing attributes read as empty) is not dirty, and adding a row to it makes it dirty |
| AttributeEditor.EditsUndo | src/views/sensor.rs:761-806 | removing the row just added restores the copy; re-entering a field's previous text restores the copy |
| AttributeEditor.EditsCommute | src/views/sensor.rs:786-797 | a key edit and a value edit give the same copy in either order, on the same row or on different rows |
| AttributeEditor.PayloadIsPartialUpdate | src/views/sensor.rs:709-715 | a device or sensor save body copies the entity's name and kind, carries the whole working list, and serialises to exactly the fields name, type and attributes |
| AttributeEditor.SaveTargets | src/views/sensor.rs:717-727 | a device save PUTs to base + "/device/" + id with the project key; a sensor save PUTs one level deeper, to that URL + "/sensor/" + sensor id, also with the project key (src/views/sensor.rs:938-943) |
| AttributeEditor.AfterSave | src/views/sensor.rs:729-751 | a response reloads the metadata and raises "Updated" with the server text ("Error parse String" when undecodable); a failed send raises "Update Failed" with the error and reloads nothing |
| Directory.Add | src/views/endpoints.rs:76-87 | adds only under a non-empty name that is not yet a key; existing entries are kept unchanged; a refused name leaves the map as it was |
| Directory.AddTwiceRefused | src/views/projects.rs:88 | after a name has been added, a second add under that name is refused and changes nothing |
| Directory.PromptDelete | src/views/endpoints.rs:48-51 | a card's trash button records the target and opens the prompt (the project page's copy, src/views/projects.rs:57-60, is identical) |
| Directory.ConfirmDelete | src/views/endpoints.rs:150-154 | removes exactly the target, keeps all other entries, is a no-op for an absent target, and closes the prompt with the target emptied (the project page's copy is src/views/projects.rs:167-171) |
| Directory.DeleteUndoesAdd | src/views/projects.rs:167-171 | confirming the deletion of an entry just added under the directory rule restores the directory |
| EndpointView.OpenDialog | src/views/endpoints.rs:32-36 | "New" clears name and URL, keeps the chosen kind and opens the dialog |
| EndpointView.BuildEndpoint | src/views/endpoints.rs:77-85 | kind "General" builds a General endpoint and any other string an Edge one; either way the base URL is the entered one |
| EndpointView.BuildFromLabels | src/views/endpoints.rs:226-227 | rebuilding from a card's kind() and baseurl() gives back the same endpoint |
| EndpointView.Submit | src/views/endpoints.rs:70-102 | succeeds iff the name is non-empty and new; then adds the built endpoint, else leaves the map unchanged with the error toast; never overwrites; always closes the dialog with name, URL and kind emptied |
| EndpointView.DeleteUndoesSubmit | src/views/endpoints.rs:70-154 | adding an endpoint under a fresh name and deleting it from its card restores the directory |
| EndpointView.SubmitScenario | src/views/endpoints.rs:70-102 | submitting e1, https://x/api, General into an empty directory stores exactly that General endpoint, whose metadata URL is https://x/api/metadata |
| EndpointView.KindConsumedBySubmit | src/views/endpoints.rs:58-73 | on a fresh page an untouched kind radio builds a General endpoint; after a submit, "New" leaves the kind empty, so the next endpoint added without touching the kind radio is an Edge endpoint |
| ProjectView.OpenDialog | src/views/projects.rs:40-45 | "Add" clears name, project key and endpoint key and opens the dialog |
| ProjectView.SelectEndpoint | src/views/projects.rs:152 | choosing an endpoint stores its name; clearing the selection stores the empty key; other fields are kept |
| ProjectView.Submit | src/views/projects.rs:82-107 | succeeds iff the name is non-empty and new; then stores both keys verbatim, else leaves the map unchanged with the error toast; never overwrites; always closes the dialog with every field emptied |
| ProjectView.DeleteUndoesSubmit | src/views/projects.rs:82-171 | adding a project under a fresh name and deleting it from its card restores the directory |
| ProjectView.DuplicateRefused | src/views/projects.rs:88-106 | a name already present is refused: the directory is unchanged, an error toast is raised and the form is reset |
| ProjectView.DanglingEndpointAccepted | src/views/projects.rs:89-93 | a project whose endpoint key names no stored endpoint is still added, and its device page then fails with "No Endpoint" |

## Left out

- HTTP: requests are modelled as values (verb, URL, `CK` header). Their outcomes are inputs: a fetch state, a response text, or a send error. reqwest, JSON decoding and headers beyond `CK` are not modelled.
- Dioxus scheduling: memo re-running, resource restarts, and the discarding of superseded fetches are framework internals. The model computes each memo from its current inputs. The metadata reload after a save is reported as a flag (`AfterSave`).
- Serialisation and storage: serde, the `type`/`deviceId` wire renames and local-storage persistence (src/persistence.rs, src/views/global.rs) are out. The only part kept is which fields a partial-update body serialises (`DeviceFields`, `SensorFields`).
- SensorData.SnapshotImage: does not model the base64 encoding itself. It takes the encoded text as given and proves only the "data:image/jpeg;base64," prefix.
- SensorData.SnapshotRequest: strings are sequences of characters, so `len()` and `[11..]` count characters where Rust counts bytes. The two agree on ASCII text only. Rust panics when offset 11 falls inside a multi-byte character, and the model does not cover that.
- Floating point: device latitude and longitude are carried as opaque optional reals and never computed on.
- Records with no logic: `ActiveInfo`, `ActiveDevice`, `ActiveNotifySetting` and `ActiveNotify` (src/models.rs:120-168) are plain data and are not modelled.
- Index errors: editing or removing a row requires its index to be in range. Rust would panic otherwise, and the UI only passes indices of rendered rows.
- UI with no logic: markup, toast durations, the earlier page variants (`DevicesPanels2`, `SensorsPanels2`, `DevicePanel2`), the navbar, home and hero views, and the `Storage`/`Storage2` counters.
