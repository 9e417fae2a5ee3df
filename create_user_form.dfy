/**
 * The admin's create-user form (src/pages/Admin/user/createUserForm.jsx):
 * roles then faculties fetched once, the selects, the avatar picker, the
 * required-field check and the create call.
 */
module CreateUserForm {
  import opened Wrappers
  import opened Entities
  import opened UserForms

  /** The text inputs of the form. */
  datatype TextInput = Username | Email

  class Form {
    var username: string
    var email: string
    var roleID: string
    var facultyID: string
    var avatar: Option<LocalFile>
    /** The object URL of the chosen avatar, `''` when none was chosen. */
    var avatarPreview: string
    var loading: bool
    var roles: seq<Role>
    var faculties: seq<Faculty>
    var fetchingData: bool
    var dataFetched: bool
    var showError: bool
    var calls: seq<Call>
    var callbacks: seq<Callback>

    /**
     * Kept by every handler: a chosen role is one of the non-Admin roles
     * offered, a chosen faculty is one of the faculties fetched, and nothing
     * is fetched until `dataFetched` is set.
     */
    predicate Valid()
      reads this
    {
      && (roleID == "" || roleID in RoleIds(NonAdminRoles(roles)))
      && (facultyID == "" || facultyID in FacultyIds(faculties))
      && (!dataFetched ==> roles == [] && faculties == [])
    }

    constructor ()
      ensures Valid()
      ensures username == "" && email == "" && roleID == "" && facultyID == "" && avatar == None
      ensures avatarPreview == "" && !loading && roles == [] && faculties == []
      ensures fetchingData && !dataFetched && !showError && calls == [] && callbacks == []
    {
      username, email, roleID, facultyID, avatar := "", "", "", "", None;
      avatarPreview, loading, roles, faculties := "", false, [], [];
      fetchingData, dataFetched, showError, calls, callbacks := true, false, false, [], [];
    }

    /**
     * The fetch effect: while nothing is fetched, ask for the roles and, only
     * if that succeeds, for the faculties; both lists are stored only when
     * both arrive. Any attempt ends the "fetching" state; once fetched,
     * nothing happens.
     */
    method FetchEffect(rolesOutcome: Response<seq<Role>>, facultiesOutcome: Response<seq<Faculty>>)
      requires Valid()
      modifies this`calls, this`roles, this`faculties, this`fetchingData, this`dataFetched
      ensures Valid()
      ensures old(dataFetched) ==> calls == old(calls) && roles == old(roles) && faculties == old(faculties)
                                   && fetchingData == old(fetchingData) && dataFetched
      ensures !old(dataFetched) ==> !fetchingData
      ensures !old(dataFetched) && rolesOutcome.Failed? ==> calls == old(calls) + [GetRoles] && !dataFetched
      ensures !old(dataFetched) && rolesOutcome.Ok? ==> calls == old(calls) + [GetRoles, GetFaculties]
      ensures !old(dataFetched) && rolesOutcome.Ok? && facultiesOutcome.Ok? ==>
                dataFetched && roles == rolesOutcome.value && faculties == facultiesOutcome.value
      ensures !old(dataFetched) && (rolesOutcome.Failed? || facultiesOutcome.Failed?) ==>
                !dataFetched && roles == old(roles) && faculties == old(faculties)
    {
      if !dataFetched {
        if rolesOutcome.Failed? {
          calls := calls + [GetRoles];
        } else if facultiesOutcome.Failed? {
          calls := calls + [GetRoles, GetFaculties];
        } else {
          calls := calls + [GetRoles, GetFaculties];
          roles, faculties, dataFetched := rolesOutcome.value, facultiesOutcome.value, true;
        }
        fetchingData := false;
      }
    }

    /** The two text fields take what was typed. */
    method HandleTextChange(input: TextInput, value: string)
      requires Valid()
      modifies this`username, this`email
      ensures Valid()
      ensures username == (if input == Username then value else old(username))
      ensures email == (if input == Email then value else old(email))
      ensures roleID == old(roleID) && facultyID == old(facultyID) && avatar == old(avatar)
      ensures calls == old(calls) && callbacks == old(callbacks) && showError == old(showError)
    {
      match input {
        case Username => username := value;
        case Email => email := value;
      }
    }

    /** The Role select offers the non-Admin roles once fetching is over; choosing option `i` stores its id. */
    method HandleRoleChange(i: nat)
      requires Valid() && !fetchingData && i < |NonAdminRoles(roles)|
      modifies this`roleID
      ensures roles == old(roles) && faculties == old(faculties)
      ensures Valid() && roleID == NonAdminRoles(roles)[i].id
      ensures username == old(username) && email == old(email) && facultyID == old(facultyID) && avatar == old(avatar)
      ensures calls == old(calls) && callbacks == old(callbacks)
    {
      roleID := NonAdminRoles(roles)[i].id;
    }

    /** The Faculty select offers every fetched faculty. */
    method HandleFacultyChange(i: nat)
      requires Valid() && !fetchingData && i < |faculties|
      modifies this`facultyID
      ensures roles == old(roles) && faculties == old(faculties)
      ensures Valid() && facultyID == faculties[i].id
      ensures username == old(username) && email == old(email) && roleID == old(roleID) && avatar == old(avatar)
      ensures calls == old(calls) && callbacks == old(callbacks)
    {
      facultyID := faculties[i].id;
    }

    /** `handleAvatarChange`: the first chosen file becomes the avatar; an empty choice changes nothing. */
    method HandleAvatarChange(selected: seq<LocalFile>, objectUrl: string)
      requires Valid()
      modifies this`avatar, this`avatarPreview
      ensures Valid()
      ensures selected != [] ==> avatar == Some(selected[0]) && avatarPreview == objectUrl
      ensures selected == [] ==> avatar == old(avatar) && avatarPreview == old(avatarPreview)
      ensures username == old(username) && email == old(email) && roleID == old(roleID) && facultyID == old(facultyID)
      ensures calls == old(calls) && callbacks == old(callbacks)
    {
      if selected != [] {
        avatar := Some(selected[0]);
        avatarPreview := objectUrl;
      }
    }

    /** Every required value is present: both texts, both selects and an avatar file. */
    predicate Complete()
      reads this
    {
      username != "" && email != "" && roleID != "" && facultyID != "" && avatar.Some?
    }

    /** The FormData for the current values. */
    function Payload(): (p: seq<FormEntry>)
      reads this
      requires avatar.Some?
      ensures |p| == 5 && p[4] == FormEntry("avatar", Blob(avatar.value))
    {
      UserPayload(username, email, roleID, facultyID, Some(AvatarFile(avatar.value)))
    }

    /**
     * `handleCreate`: the browser submits the form only when the required
     * username, email, role and faculty are filled in; the avatar input is
     * not required, so the handler's own check can still find it missing.
     * An incomplete form only shows the error and calls nothing. A complete
     * one sends all five fields, with a non-Admin role; success invokes
     * `onCreatedUser`, failure is only logged. The button is enabled again
     * either way.
     */
    method HandleCreate(createOk: bool)
      requires Valid()
      requires username != "" && email != "" && roleID != "" && facultyID != ""
      modifies this`showError, this`loading, this`calls, this`callbacks
      ensures Valid()
      ensures old(Complete()) <==> old(avatar).Some?
      ensures !old(Complete()) ==> showError && calls == old(calls) && callbacks == old(callbacks)
                                   && loading == old(loading)
      ensures old(Complete()) ==>
                && calls == old(calls) + [CreateUser(old(Payload()))]
                && callbacks == old(callbacks) + (if createOk then [CreatedUser] else [])
                && !loading && showError == old(showError)
    {
      if !Complete() {
        showError := true;
      } else {
        loading := true;
        var data := Payload();
        calls := calls + [CreateUser(data)];
        if createOk {
          callbacks := callbacks + [CreatedUser];
        }
        loading := false;
      }
    }

    /** The role a valid form would send is a fetched role other than Admin. */
    lemma ChosenRoleIsNotAdmin()
      requires Valid() && roleID != ""
      ensures exists role :: role in roles && role.id == roleID && role.roleName != "Admin"
    {
      OfferedRoleIsNotAdmin(roles, roleID);
    }

    /** Closing the error snackbar. */
    method HandleErrorClose()
      requires Valid()
      modifies this`showError
      ensures Valid() && !showError
      ensures username == old(username) && email == old(email) && roleID == old(roleID) && facultyID == old(facultyID)
      ensures avatar == old(avatar) && calls == old(calls) && callbacks == old(callbacks)
    {
      showError := false;
    }
  }
}
