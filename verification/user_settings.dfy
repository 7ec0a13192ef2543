/** The modal that edits an existing user: its form state, the form loaded
    from the user being edited, the checkbox toggles and the submit flow. */
module UserSettings {

  import opened Checklist
  import opened Roles
  import opened Collaborators

  /** The `formData` state of the modal. */
  datatype SettingsForm = SettingsForm(
    name: string,
    username: string,
    email: string,
    phone: string,
    role: string,
    isActive: bool,
    assignedPages: seq<Id>,
    customPermissions: seq<Id>)

  /** A user record as the modal reads it; the optional fields may be missing. */
  datatype User = User(
    id: string,
    username: string,
    name: string,
    email: Option<string>,
    phone: Option<string>,
    role: string,
    isActive: bool,
    assignedPages: Option<seq<Id>>,
    customPermissions: Option<seq<Id>>,
    createdAt: string,
    lastLogin: Option<string>)

  /** The fields object handed to `updateUser`: the form spread, then the
      identity and timestamps of the edited user. */
  datatype UpdatePayload = UpdatePayload(
    name: string,
    username: string,
    email: string,
    phone: string,
    role: string,
    isActive: bool,
    assignedPages: seq<Id>,
    customPermissions: seq<Id>,
    id: string,
    createdAt: string,
    lastLogin: Option<string>)

  /** The calls the submit handler makes, in the order it makes them. */
  datatype Call =
    | UpdateUser(userId: string, payload: UpdatePayload)
    | AssignPagesToUser(userId: string, pages: seq<Id>)
    | OnSuccess

  /** The form before any user is loaded. */
  const BlankForm := SettingsForm("", "", "", "", "user", true, [], [])

  /** The form fields carried by a payload. */
  function FormPart(p: UpdatePayload): SettingsForm
  {
    SettingsForm(p.name, p.username, p.email, p.phone, p.role, p.isActive,
                 p.assignedPages, p.customPermissions)
  }

  /** The user record a payload describes, with every optional field present. */
  function Described(p: UpdatePayload): User
  {
    User(p.id, p.username, p.name, Some(p.email), Some(p.phone), p.role, p.isActive,
         Some(p.assignedPages), Some(p.customPermissions), p.createdAt, p.lastLogin)
  }

  /** The form loaded when the modal opens on a user. */
  function FormFromUser(u: User): (f: SettingsForm)
    ensures f.name == u.name && f.username == u.username
    ensures f.role == u.role && f.isActive == u.isActive
    ensures u.email.Some? ==> f.email == u.email.value
    ensures u.phone.Some? ==> f.phone == u.phone.value
    ensures u.assignedPages.Some? ==> f.assignedPages == u.assignedPages.value
    ensures u.customPermissions.Some? ==> f.customPermissions == u.customPermissions.value
    ensures u.email.None? ==> f.email == ""
    ensures u.phone.None? ==> f.phone == ""
    ensures u.assignedPages.None? ==> f.assignedPages == []
    ensures u.customPermissions.None? ==> f.customPermissions == []
  {
    SettingsForm(u.name, u.username, OrElse(u.email, ""), OrElse(u.phone, ""), u.role,
                 u.isActive, OrElse(u.assignedPages, []), OrElse(u.customPermissions, []))
  }

  /** The payload of the `updateUser` call. */
  function Payload(form: SettingsForm, u: User): (p: UpdatePayload)
    // identity and timestamps come from the edited user, never from the form
    ensures p.id == u.id && p.createdAt == u.createdAt && p.lastLogin == u.lastLogin
    // every form field is sent as it stands, assignedPages included, whatever the role
    ensures FormPart(p) == form
  {
    UpdatePayload(form.name, form.username, form.email, form.phone, form.role,
                  form.isActive, form.assignedPages, form.customPermissions,
                  u.id, u.createdAt, u.lastLogin)
  }

  /** Opening the modal on a user with every optional field present and saving
      without an edit describes exactly that user. */
  lemma OpenThenSaveRoundTrip(u: User)
    requires u.email.Some? && u.phone.Some?
    requires u.assignedPages.Some? && u.customPermissions.Some?
    ensures Described(Payload(FormFromUser(u), u)) == u
  {
  }

  /** Missing optional fields come back as empty values after an unedited save. */
  lemma OpenThenSaveFillsDefaults(u: User)
    ensures var d := Described(Payload(FormFromUser(u), u));
      d.email == Some(OrElse(u.email, "")) && d.phone == Some(OrElse(u.phone, "")) &&
      d.assignedPages == Some(OrElse(u.assignedPages, [])) &&
      d.customPermissions == Some(OrElse(u.customPermissions, [])) &&
      d.(email := u.email, phone := u.phone, assignedPages := u.assignedPages,
         customPermissions := u.customPermissions) == u
  {
  }

  /** `handlePageToggle`. */
  function TogglePage(f: SettingsForm, pageId: Id): (r: SettingsForm)
    ensures r.assignedPages == Toggle(f.assignedPages, pageId)
    ensures pageId in r.assignedPages <==> pageId !in f.assignedPages
    ensures r.(assignedPages := f.assignedPages) == f
  {
    f.(assignedPages := Toggle(f.assignedPages, pageId))
  }

  /** `handlePermissionToggle`. */
  function TogglePermission(f: SettingsForm, permissionId: Id): (r: SettingsForm)
    ensures r.customPermissions == Toggle(f.customPermissions, permissionId)
    ensures permissionId in r.customPermissions <==> permissionId !in f.customPermissions
    ensures r.(customPermissions := f.customPermissions) == f
  {
    f.(customPermissions := Toggle(f.customPermissions, permissionId))
  }

  /** The role selector's change handler: only the role changes; assigned
      pages and custom permissions survive a change to any role. */
  function SetRole(f: SettingsForm, role: string): (r: SettingsForm)
    ensures r.role == role
    ensures r.assignedPages == f.assignedPages && r.customPermissions == f.customPermissions
    ensures r.(role := f.role) == f
  {
    f.(role := role)
  }

  /** A page toggled on and then off again leaves the whole form as it was. */
  lemma TogglePageTwice(f: SettingsForm, pageId: Id)
    requires pageId !in f.assignedPages
    ensures TogglePage(TogglePage(f, pageId), pageId) == f
  {
    ToggleTwiceAbsent(f.assignedPages, pageId);
  }

  /** A permission toggled on and then off again leaves the whole form as it was. */
  lemma TogglePermissionTwice(f: SettingsForm, permissionId: Id)
    requires permissionId !in f.customPermissions
    ensures TogglePermission(TogglePermission(f, permissionId), permissionId) == f
  {
    ToggleTwiceAbsent(f.customPermissions, permissionId);
  }

  /** The calls made by a submit on user `u` with form `form`, given what
      `updateUser` and `assignPagesToUser` did. */
  function SubmitCalls(u: User, form: SettingsForm, update: Reply<bool>, assign: Reply<()>)
    : (r: seq<Call>)
    // updateUser is always called first, and only once
    ensures |r| >= 1 && r[0] == UpdateUser(u.id, Payload(form, u))
    ensures forall i :: 1 <= i < |r| ==> !r[i].UpdateUser?
    // assignPagesToUser is called exactly when the update succeeded and the role is page-scoped
    ensures AssignPagesToUser(u.id, form.assignedPages) in r <==>
            update == Returned(true) && NeedsPageAssignment(form.role)
    ensures forall c :: c in r && c.AssignPagesToUser? ==>
            c == AssignPagesToUser(u.id, form.assignedPages)
    // onSuccess only after a successful update, and not when the page assignment threw
    ensures OnSuccess in r <==>
            update == Returned(true) && (!NeedsPageAssignment(form.role) || assign.Returned?)
    ensures OnSuccess in r ==> r[|r| - 1] == OnSuccess
    // each follow-up call is made at most once
    ensures multiset(r)[OnSuccess] <= 1
    ensures multiset(r)[AssignPagesToUser(u.id, form.assignedPages)] <= 1
  {
    var updateCall := UpdateUser(u.id, Payload(form, u));
    var assignCall := AssignPagesToUser(u.id, form.assignedPages);
    if update != Returned(true) then
      [updateCall]
    else if !NeedsPageAssignment(form.role) then
      [updateCall, OnSuccess]
    else if assign.Returned? then
      [updateCall, assignCall, OnSuccess]
    else
      [updateCall, assignCall]
  }

  /** For a role that is not page-scoped, a successful save still sends the
      assigned pages inside the update payload, and makes no page-assignment call. */
  lemma UnscopedRoleStillSendsPages(u: User, form: SettingsForm, assign: Reply<()>)
    requires !NeedsPageAssignment(form.role)
    ensures var r := SubmitCalls(u, form, Returned(true), assign);
      r == [UpdateUser(u.id, Payload(form, u)), OnSuccess] &&
      r[0].payload.assignedPages == form.assignedPages
  {
  }

  /** The state of one settings modal. */
  class SettingsModal {
    var formData: SettingsForm
    var loading: bool
    /** The calls made into the library and the callbacks, oldest first. */
    var effects: seq<Call>

    constructor ()
      ensures formData == BlankForm && !loading && effects == []
    {
      formData := SettingsForm("", "", "", "", "user", true, [], []);
      loading := false;
      effects := [];
    }

    /** The effect that runs when the modal is shown or its user changes. */
    method Load(isOpen: bool, user: Option<User>)
      modifies this
      ensures formData == (if isOpen && user.Some? then FormFromUser(user.value) else old(formData))
      ensures loading == old(loading) && effects == old(effects)
    {
      if isOpen && user.Some? {
        formData := FormFromUser(user.value);
      }
    }

    method PageToggle(pageId: Id)
      modifies this
      ensures formData == TogglePage(old(formData), pageId)
      ensures loading == old(loading) && effects == old(effects)
    {
      formData := formData.(assignedPages := Toggle(formData.assignedPages, pageId));
    }

    method PermissionToggle(permissionId: Id)
      modifies this
      ensures formData == TogglePermission(old(formData), permissionId)
      ensures loading == old(loading) && effects == old(effects)
    {
      formData := formData.(customPermissions := Toggle(formData.customPermissions, permissionId));
    }

    method ChangeRole(role: string)
      modifies this
      ensures formData == SetRole(old(formData), role)
      ensures loading == old(loading) && effects == old(effects)
    {
      formData := formData.(role := role);
    }

    /** `handleSubmit`, with the replies of `updateUser` and
        `assignPagesToUser` given as inputs. */
    method Submit(user: Option<User>, update: Reply<bool>, assign: Reply<()>)
      modifies this
      ensures formData == old(formData)
      // with no user the handler returns at once
      ensures user.None? ==> loading == old(loading) && effects == old(effects)
      // otherwise loading is cleared in every outcome
      ensures user.Some? ==> !loading
      ensures user.Some? ==>
        effects == old(effects) + SubmitCalls(user.value, formData, update, assign)
    {
      if user.None? {
        return;
      }
      var u := user.value;
      loading := true;
      effects := effects + [UpdateUser(u.id, UpdatePayload(
        formData.name, formData.username, formData.email, formData.phone, formData.role,
        formData.isActive, formData.assignedPages, formData.customPermissions,
        u.id, u.createdAt, u.lastLogin))];
      if update == Returned(true) {
        var needsPageAssignment := formData.role == "user" || formData.role == "viewer";
        var threw := false;
        if needsPageAssignment {
          effects := effects + [AssignPagesToUser(u.id, formData.assignedPages)];
          threw := assign.Threw?;
        }
        if !threw {
          effects := effects + [OnSuccess];
        }
      }
      // a Threw reply from updateUser is caught and logged; nothing else happens
      loading := false;
    }
  }
}
