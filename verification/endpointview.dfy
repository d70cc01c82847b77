/**
  The endpoint directory page (EndpointView in src/views/endpoints.rs): the
  new-endpoint form and what submitting it does to the endpoint map. The delete
  prompt and its confirmation are shared with the project page (module Directory).
*/
module EndpointView {
  import opened Wrappers
  import opened Endpoints
  import opened Effects
  import Directory

  /** The new-endpoint dialog's form. */
  datatype NewEndpointInfo = NewEndpointInfo(name: string, endpointUrl: string, kind: string, isOpen: bool)

  /** The form as the page creates it: the kind radio starts on "General". */
  const InitialNewInfo: NewEndpointInfo := NewEndpointInfo("", "", "General", false)

  /** "New": clear the name and URL, keep the chosen kind, open the dialog. */
  function OpenDialog(info: NewEndpointInfo): (r: NewEndpointInfo)
    ensures r.name == "" && r.endpointUrl == "" && r.isOpen
    ensures r.kind == info.kind
  {
    info.(name := "", endpointUrl := "", isOpen := true)
  }

  /** The endpoint the form describes: "General" builds a General endpoint, any other kind an Edge one. */
  function BuildEndpoint(kind: string, url: string): (e: Endpoint)
    ensures e.BaseUrl() == url
    ensures e.General? <==> kind == "General"
  {
    if kind == "General" then General(GeneralEndpoint(url)) else Edge(EdgeEndpoint(url))
  }

  /**
    An endpoint card shows `kind()` and `baseurl()`; building from those two labels
    gives back the same endpoint.
  */
  lemma BuildFromLabels(e: Endpoint)
    ensures BuildEndpoint(e.Kind(), e.BaseUrl()) == e
  {
  }

  /** What a submit leaves behind. */
  datatype Submitted = Submitted(endpoints: map<string, Endpoint>, form: NewEndpointInfo, toast: Toast)

  /**
    "Submit": the form's fields are taken (left empty) and the dialog closes
    whatever happens; the endpoint is added only under a fresh non-empty name.
  */
  function Submit(endpoints: map<string, Endpoint>, info: NewEndpointInfo): (r: Submitted)
    ensures r.toast.Success? <==> Directory.CanAdd(endpoints, info.name)
    ensures r.endpoints.Keys == endpoints.Keys + (if r.toast.Success? then {info.name} else {})
    ensures forall k :: k in endpoints ==> k in r.endpoints && r.endpoints[k] == endpoints[k]
    ensures r.toast.Success? ==> r.endpoints[info.name] == BuildEndpoint(info.kind, info.endpointUrl)
    ensures r.toast.Error? ==> r.endpoints == endpoints
    ensures r.toast.Success? ==> r.toast == Success("Add endpoint '" + info.name + "' success", None)
    ensures r.toast.Error? ==> r.toast == Error("Add endpoint Failed", Some("name is already exist or empty"))
    ensures r.form == NewEndpointInfo("", "", "", false)
  {
    var added := Directory.CanAdd(endpoints, info.name);
    var toast :=
      if added then Success("Add endpoint '" + info.name + "' success", None)
      else Error("Add endpoint Failed", Some("name is already exist or empty"));
    Submitted(
      Directory.Add(endpoints, info.name, BuildEndpoint(info.kind, info.endpointUrl)),
      NewEndpointInfo("", "", "", false),
      toast)
  }

  /** Creating an endpoint and then deleting it through its card restores the directory. */
  lemma DeleteUndoesSubmit(endpoints: map<string, Endpoint>, info: NewEndpointInfo, prompt: Directory.DeletePrompt)
    requires Directory.CanAdd(endpoints, info.name)
    ensures Directory.ConfirmDelete(Submit(endpoints, info).endpoints, Directory.PromptDelete(prompt, info.name)).dir == endpoints
  {
  }

  /** A General endpoint "e1" at "https://x/api" is stored as such and serves its metadata under it. */
  lemma SubmitScenario()
    ensures var r := Submit(map[], NewEndpointInfo("e1", "https://x/api", "General", true));
      && r.endpoints == map["e1" := General(GeneralEndpoint("https://x/api"))]
      && r.endpoints["e1"].Metadata() == "https://x/api/metadata"
  {
  }

  /**
    On a fresh page the kind radio starts on General. Submitting consumes the kind
    as well as the name and URL, and "New" does not restore it: the next endpoint
    added without touching the kind radio is an Edge one.
  */
  lemma KindConsumedBySubmit(endpoints: map<string, Endpoint>, info: NewEndpointInfo, name: string, url: string)
    ensures var form := OpenDialog(InitialNewInfo).(name := name, endpointUrl := url);
      Directory.CanAdd(endpoints, name) ==> Submit(endpoints, form).endpoints[name] == General(GeneralEndpoint(url))
    ensures var first := Submit(endpoints, info);
      var form := OpenDialog(first.form).(name := name, endpointUrl := url);
      && form.kind == ""
      && (Directory.CanAdd(first.endpoints, name) ==> Submit(first.endpoints, form).endpoints[name] == Edge(EdgeEndpoint(url)))
  {
  }
}
