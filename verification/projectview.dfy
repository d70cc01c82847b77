/**
  The project directory page (ProjectsView in src/views/projects.rs): the
  add-project form and what submitting it does to the project map. The delete
  prompt and its confirmation are shared with the endpoint page (module Directory).
*/
module ProjectView {
  import opened Wrappers
  import opened Models
  import opened Endpoints
  import opened Effects
  import Directory
  import DevicePage

  /** The add-project dialog's form. */
  datatype AddProjectCtx = AddProjectCtx(isOpen: bool, name: string, projectKey: string, endpointKey: string)

  const InitialAddProject: AddProjectCtx := AddProjectCtx(false, "", "", "")

  /** "Add": clear every field and open the dialog. */
  function OpenDialog(ctx: AddProjectCtx): (r: AddProjectCtx)
    ensures r == AddProjectCtx(true, "", "", "")
  {
    ctx.(name := "", projectKey := "", endpointKey := "", isOpen := true)
  }

  /** The endpoint selector: a cleared selection stores the empty key. */
  function SelectEndpoint(ctx: AddProjectCtx, choice: Option<string>): (r: AddProjectCtx)
    ensures r.endpointKey == (if choice.Some? then choice.value else "")
    ensures r.name == ctx.name && r.projectKey == ctx.projectKey && r.isOpen == ctx.isOpen
  {
    ctx.(endpointKey := choice.GetOr(""))
  }

  datatype Submitted = Submitted(projects: map<string, Project>, form: AddProjectCtx, toast: Toast)

  /**
    "Submit": the form's fields are taken (left empty) and the dialog closes
    whatever happens; the project is added, with both keys stored verbatim, only
    under a fresh non-empty name.
  */
  function Submit(projects: map<string, Project>, ctx: AddProjectCtx): (r: Submitted)
    ensures r.toast.Success? <==> Directory.CanAdd(projects, ctx.name)
    ensures r.projects.Keys == projects.Keys + (if r.toast.Success? then {ctx.name} else {})
    ensures forall k :: k in projects ==> k in r.projects && r.projects[k] == projects[k]
    ensures r.toast.Success? ==> r.projects[ctx.name] == Project(ctx.projectKey, ctx.endpointKey)
    ensures r.toast.Error? ==> r.projects == projects
    ensures r.toast.Success? ==> r.toast == Success("Add project '" + ctx.name + "' success", None)
    ensures r.toast.Error? ==> r.toast == Error("Add project Failed", Some("name is already exist or empty"))
    ensures r.form == AddProjectCtx(false, "", "", "")
  {
    var added := Directory.CanAdd(projects, ctx.name);
    var toast :=
      if added then Success("Add project '" + ctx.name + "' success", None)
      else Error("Add project Failed", Some("name is already exist or empty"));
    Submitted(
      Directory.Add(projects, ctx.name, Project(ctx.projectKey, ctx.endpointKey)),
      AddProjectCtx(false, "", "", ""),
      toast)
  }

  /** Creating a project and then deleting it through its card restores the directory. */
  lemma DeleteUndoesSubmit(projects: map<string, Project>, ctx: AddProjectCtx, prompt: Directory.DeletePrompt)
    requires Directory.CanAdd(projects, ctx.name)
    ensures Directory.ConfirmDelete(Submit(projects, ctx).projects, Directory.PromptDelete(prompt, ctx.name)).dir == projects
  {
  }

  /** A name already in the directory is refused: nothing changes and an error is raised. */
  lemma DuplicateRefused(projects: map<string, Project>, ctx: AddProjectCtx)
    requires ctx.name in projects
    ensures Submit(projects, ctx).projects == projects
    ensures Submit(projects, ctx).toast.Error?
    ensures Submit(projects, ctx).form == InitialAddProject
  {
  }

  /**
    The endpoint key is not checked on submit: a project naming no stored endpoint
    (the cleared selection included) is added, and its device page then fails to
    load with "No Endpoint".
  */
  lemma DanglingEndpointAccepted(projects: map<string, Project>, endpoints: map<string, Endpoint>, ctx: AddProjectCtx)
    requires Directory.CanAdd(projects, ctx.name) && ctx.endpointKey !in endpoints
    ensures ctx.name in Submit(projects, ctx).projects
    ensures DevicePage.PageRequest(Submit(projects, ctx).projects, endpoints, ctx.name) == Err("No Endpoint")
  {
  }
}
