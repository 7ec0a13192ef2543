/** The modal that creates a new user: its form state, the checkbox toggles
    and the submit flow with its reset and error messages. */
module UserCreation {

  import opened Checklist
  import opened Roles
  import opened Collaborators

  /** The `formData` state of the modal, which is also the fields object
      handed to `createUser`. */
  datatype CreationForm = CreationForm(
    username: string,
    password: string,
    name: string,
    phone: string,
    email: string,
    role: string,
    assignedPages: seq<Id>,
    customPermissions: seq<Id>)

  /** The calls the submit handler makes, in the order it makes them. */
  datatype Call =
    | CreateUser(fields: CreationForm)
    | OnSuccess
    | OnClose

  /** The form when the modal is first mounted. */
  const InitialForm := CreationForm("", "", "", "", "", "user", [], [])

  /** Shown when `createUser` reports that the username is taken. */
  const UsernameTaken := "Username already exists!"

  /** Shown when `createUser` throws. */
  const CreateFailed := "Failed to create user"

  /** `handlePageToggle`. This modal keeps its own form record (it has a
      password and no active flag), so the list toggle is lifted onto it here. */
  function TogglePage(f: CreationForm, pageId: Id): (r: CreationForm)
    ensures r.assignedPages == Toggle(f.assignedPages, pageId)
    ensures pageId in r.assignedPages <==> pageId !in f.assignedPages
    ensures r.(assignedPages := f.assignedPages) == f
  {
    f.(assignedPages := Toggle(f.assignedPages, pageId))
  }

  /** `handlePermissionToggle`. */
  function TogglePermission(f: CreationForm, permissionId: Id): (r: CreationForm)
    ensures r.customPermissions == Toggle(f.customPermissions, permissionId)
    ensures permissionId in r.customPermissions <==> permissionId !in f.customPermissions
    ensures r.(customPermissions := f.customPermissions) == f
  {
    f.(customPermissions := Toggle(f.customPermissions, permissionId))
  }

  /** The role selector's change handler: only the role changes; assigned
      pages and custom permissions survive a change to any role. */
  function SetRole(f: CreationForm, role: string): (r: CreationForm)
    ensures r.role == role
    ensures r.assignedPages == f.assignedPages && r.customPermissions == f.customPermissions
    ensures r.(role := f.role) == f
  {
    f.(role := role)
  }

  /** A page toggled on and then off again leaves the whole form as it was. */
  lemma TogglePageTwice(f: CreationForm, pageId: Id)
    requires pageId !in f.assignedPages
    ensures TogglePage(TogglePage(f, pageId), pageId) == f
  {
    ToggleTwiceAbsent(f.assignedPages, pageId);
  }

  /** A permission toggled on and then off again leaves the whole form as it was. */
  lemma TogglePermissionTwice(f: CreationForm, permissionId: Id)
    requires permissionId !in f.customPermissions
    ensures TogglePermission(TogglePermission(f, permissionId), permissionId) == f
  {
    ToggleTwiceAbsent(f.customPermissions, permissionId);
  }

  /** The calls made by a submit of `form`, given what `createUser` did. */
  function SubmitCalls(form: CreationForm, create: Reply<bool>): (r: seq<Call>)
    // the whole form, assigned pages included, is handed to createUser
    ensures |r| >= 1 && r[0] == CreateUser(form)
    // onSuccess and onClose are called exactly when the user was created, in that order
    ensures OnSuccess in r <==> create == Returned(true)
    ensures OnClose in r <==> create == Returned(true)
    ensures create == Returned(true) ==> |r| == 3 && r[1] == OnSuccess && r[2] == OnClose
    // a refusal or a throw makes no call after createUser
    ensures create != Returned(true) ==> r == [CreateUser(form)]
  {
    if create == Returned(true) then [CreateUser(form), OnSuccess, OnClose]
    else [CreateUser(form)]
  }

  /** The message shown after a submit: none on success, otherwise one that
      tells a taken username apart from a failure. */
  function SubmitError(create: Reply<bool>): (e: string)
    ensures e == "" <==> create == Returned(true)
    ensures e == UsernameTaken <==> create == Returned(false)
    ensures e == CreateFailed <==> create == Threw
  {
    match create
    case Returned(success) => if success then "" else UsernameTaken
    case Threw => CreateFailed
  }

  /** Choosing role "user" and ticking two distinct pages on a fresh form
      hands createUser a record with that role and exactly those pages. */
  lemma CreateWithTwoPages(p1: Id, p2: Id)
    requires p1 != p2
    ensures var f := TogglePage(TogglePage(SetRole(InitialForm, "user"), p1), p2);
      f.role == "user" && f.assignedPages == [p1, p2] &&
      SubmitCalls(f, Returned(true))[0] == CreateUser(f)
  {
  }

  /** The state of one creation modal. */
  class CreationModal {
    var formData: CreationForm
    var loading: bool
    var error: string
    /** The calls made into the library and the callbacks, oldest first. */
    var effects: seq<Call>

    constructor ()
      ensures formData == InitialForm && !loading && error == "" && effects == []
    {
      formData := CreationForm("", "", "", "", "", "user", [], []);
      loading := false;
      error := "";
      effects := [];
    }

    method PageToggle(pageId: Id)
      modifies this
      ensures formData == TogglePage(old(formData), pageId)
      ensures loading == old(loading) && error == old(error) && effects == old(effects)
    {
      formData := formData.(assignedPages := Toggle(formData.assignedPages, pageId));
    }

    method PermissionToggle(permissionId: Id)
      modifies this
      ensures formData == TogglePermission(old(formData), permissionId)
      ensures loading == old(loading) && error == old(error) && effects == old(effects)
    {
      formData := formData.(customPermissions := Toggle(formData.customPermissions, permissionId));
    }

    method ChangeRole(role: string)
      modifies this
      ensures formData == SetRole(old(formData), role)
      ensures loading == old(loading) && error == old(error) && effects == old(effects)
    {
      formData := formData.(role := role);
    }

    /** The first two steps of `handleSubmit`: mark the form busy and clear
        any message left from an earlier attempt. */
    method StartSubmit()
      modifies this
      ensures loading && error == ""
      ensures formData == old(formData) && effects == old(effects)
    {
      loading := true;
      error := "";
    }

    /** `handleSubmit`, with the reply of `createUser` given as an input. */
    method Submit(create: Reply<bool>)
      modifies this
      // loading is cleared in every outcome
      ensures !loading
      ensures effects == old(effects) + SubmitCalls(old(formData), create)
      // the message depends on this reply only: a stale one never survives
      ensures error == SubmitError(create)
      // success resets the form to its initial state; otherwise it is kept for correction
      ensures formData == (if create == Returned(true) then InitialForm else old(formData))
    {
      StartSubmit();
      effects := effects + [CreateUser(formData)];
      match create {
        case Returned(success) =>
          if success {
            effects := effects + [OnSuccess, OnClose];
            formData := CreationForm("", "", "", "", "", "user", [], []);
          } else {
            error := "Username already exists!";
          }
        case Threw =>
          error := "Failed to create user";
      }
      loading := false;
    }
  }
}
