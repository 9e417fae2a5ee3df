/**
 * The admin's update-user form. The repository has two copies of it
 * (src/pages/Admin/user/updateUserForm.jsx, which also takes `onClose`, and
 * src/pages/Admin/userManagement/updateUserForm.jsx, which does not); one
 * class models both, told apart by `hasOnClose`.
 */
module UpdateUserForm {
  import opened Wrappers
  import opened Entities
  import opened UserForms

  /** The text inputs of the form. */
  datatype TextInput = Username | Email

  class Form {
    /** Whether the parent passed `onClose`. */
    const hasOnClose: bool
    /** The `user` prop. */
    var user: User
    var username: string
    var email: string
    var roleID: string
    var facultyID: string
    var avatar: Option<Avatar>
    /** The preview source; `''` and `null` both mean no preview. */
    var avatarPreview: string
    var loading: bool
    var roles: seq<Role>
    var faculties: seq<Faculty>
    var fetchingData: bool
    var dataFetched: bool
    var calls: seq<Call>
    var callbacks: seq<Callback>

    /**
     * Kept by every handler: a role or faculty id held by the form is empty
     * or the id of a fetched entry, and nothing is fetched before
     * `dataFetched` is set.
     */
    predicate Valid()
      reads this
    {
      && (roleID == "" || roleID in RoleIds(roles))
      && (facultyID == "" || facultyID in FacultyIds(faculties))
      && (!dataFetched ==> roles == [] && faculties == [])
    }

    /** The state on mounting: texts and avatar from the user, no role or faculty chosen yet. */
    predicate Initial(u: User)
      reads this
    {
      && user == u && username == u.username && email == u.email && roleID == "" && facultyID == ""
      && avatar == StoredAvatar(u) && avatarPreview == u.avatar.GetOr("")
      && !loading && roles == [] && faculties == [] && fetchingData && !dataFetched
      && calls == [] && callbacks == []
    }

    /** Mounted from src/pages/Admin/user/updateUserForm.jsx, with `onClose`. */
    constructor WithClose(u: User)
      ensures hasOnClose && Initial(u) && Valid()
    {
      hasOnClose := true;
      user, username, email, roleID, facultyID := u, u.username, u.email, "", "";
      avatar, avatarPreview := StoredAvatar(u), u.avatar.GetOr("");
      loading, roles, faculties, fetchingData, dataFetched := false, [], [], true, false;
      calls, callbacks := [], [];
    }

    /** Mounted from src/pages/Admin/userManagement/updateUserForm.jsx, without `onClose`. */
    constructor WithoutClose(u: User)
      ensures !hasOnClose && Initial(u) && Valid()
    {
      hasOnClose := false;
      user, username, email, roleID, facultyID := u, u.username, u.email, "", "";
      avatar, avatarPreview := StoredAvatar(u), u.avatar.GetOr("");
      loading, roles, faculties, fetchingData, dataFetched := false, [], [], true, false;
      calls, callbacks := [], [];
    }

    /**
     * The fetch effect: while nothing is fetched, ask for roles and
     * faculties together; when both arrive store them and preselect the
     * user's own role and faculty where the lists have them. Any attempt ends
     * the "fetching" state; once fetched, nothing happens.
     */
    method FetchEffect(outcome: Response<(seq<Role>, seq<Faculty>)>)
      requires Valid()
      modifies this`calls, this`roles, this`faculties, this`roleID, this`facultyID, this`fetchingData, this`dataFetched
      ensures Valid()
      ensures old(dataFetched) ==> calls == old(calls) && roles == old(roles) && faculties == old(faculties)
                                   && roleID == old(roleID) && facultyID == old(facultyID)
                                   && fetchingData == old(fetchingData) && dataFetched
      ensures !old(dataFetched) ==> calls == old(calls) + [GetRoles, GetFaculties] && !fetchingData
      ensures !old(dataFetched) && outcome.Ok? ==>
                && dataFetched && roles == outcome.value.0 && faculties == outcome.value.1
                && roleID == PreselectRole(outcome.value.0, user)
                && facultyID == PreselectFaculty(outcome.value.1, user)
      ensures !old(dataFetched) && outcome.Failed? ==>
                !dataFetched && roles == old(roles) && faculties == old(faculties)
                && roleID == old(roleID) && facultyID == old(facultyID)
    {
      if !dataFetched {
        calls := calls + [GetRoles, GetFaculties];
        if outcome.Ok? {
          var (rs, fs) := outcome.value;
          roles, faculties, dataFetched := rs, fs, true;
          roleID, facultyID := PreselectRole(rs, user), PreselectFaculty(fs, user);
        }
        fetchingData := false;
      }
    }

    /**
     * The effect on a new `user` prop: texts and avatar are taken from it
     * again; the chosen role and faculty stay as they are.
     */
    method SyncEffect(u: User)
      requires Valid()
      modifies this`user, this`username, this`email, this`avatar, this`avatarPreview
      ensures Valid()
      ensures user == u && username == u.username && email == u.email
      ensures avatar == StoredAvatar(u) && avatarPreview == u.avatar.GetOr("")
      ensures roleID == old(roleID) && facultyID == old(facultyID) && roles == old(roles) && faculties == old(faculties)
      ensures dataFetched == old(dataFetched) && calls == old(calls) && callbacks == old(callbacks)
    {
      user := u;
      username, email := u.username, u.email;
      avatar, avatarPreview := StoredAvatar(u), u.avatar.GetOr("");
    }

    /** The two text fields take what was typed. */
    method HandleTextChange(input: TextInput, value: string)
      requires Valid()
      modifies this`username, this`email
      ensures Valid()
      ensures username == (if input == Username then value else old(username))
      ensures email == (if input == Email then value else old(email))
      ensures roleID == old(roleID) && facultyID == old(facultyID) && avatar == old(avatar) && user == old(user)
      ensures calls == old(calls) && callbacks == old(callbacks)
    {
      match input {
        case Username => username := value;
        case Email => email := value;
      }
    }

    /** The Role select offers the non-Admin roles once fetching is over. */
    method HandleRoleChange(i: nat)
      requires Valid() && !fetchingData && i < |NonAdminRoles(roles)|
      modifies this`roleID
      ensures roles == old(roles) && faculties == old(faculties)
      ensures Valid() && roleID == NonAdminRoles(roles)[i].id
      ensures username == old(username) && email == old(email) && facultyID == old(facultyID) && avatar == old(avatar)
      ensures user == old(user) && calls == old(calls) && callbacks == old(callbacks)
    {
      OfferedRoleIsFetched(roles, i);
      roleID := NonAdminRoles(roles)[i].id;
    }

    /** The Faculty select offers every fetched faculty. */
    method HandleFacultyChange(i: nat)
      requires Valid() && !fetchingData && i < |faculties|
      modifies this`facultyID
      ensures roles == old(roles) && faculties == old(faculties)
      ensures Valid() && facultyID == faculties[i].id
      ensures username == old(username) && email == old(email) && roleID == old(roleID) && avatar == old(avatar)
      ensures user == old(user) && calls == old(calls) && callbacks == old(callbacks)
    {
      facultyID := faculties[i].id;
      assert FacultyIds(faculties)[i] == facultyID;
    }

    /** `handleAvatarChange`: the first chosen file replaces the avatar; an empty choice changes nothing. */
    method HandleAvatarChange(selected: seq<LocalFile>, objectUrl: string)
      requires Valid()
      modifies this`avatar, this`avatarPreview
      ensures Valid()
      ensures selected != [] ==> avatar == Some(AvatarFile(selected[0])) && avatarPreview == objectUrl
      ensures selected == [] ==> avatar == old(avatar) && avatarPreview == old(avatarPreview)
      ensures username == old(username) && email == old(email) && roleID == old(roleID) && facultyID == old(facultyID)
      ensures user == old(user) && calls == old(calls) && callbacks == old(callbacks)
    {
      if selected != [] {
        avatar := Some(AvatarFile(selected[0]));
        avatarPreview := objectUrl;
      }
    }

    /** The FormData for the current values. */
    function Payload(): (p: seq<FormEntry>)
      reads this
      ensures |p| == (if avatar.Some? then 5 else 4)
      ensures p[2] == FormEntry("roleID", Text(roleID)) && p[3] == FormEntry("facultyID", Text(facultyID))
    {
      UserPayload(username, email, roleID, facultyID, avatar)
    }

    /**
     * `handleUpdate`: the handler itself checks nothing, but the browser
     * submits the form only when the required username, email, role and
     * faculty are filled in (the avatar's control holds no input of its own
     * to require). The values are sent for the user's id. Success invokes
     * `onUserUpdated` and then, where the parent passed one, `onClose`;
     * failure is only logged. The role and faculty sent are fetched ones, so
     * the form cannot be submitted before the lists arrive.
     */
    method HandleUpdate(updateOk: bool)
      requires Valid()
      requires username != "" && email != "" && roleID != "" && facultyID != ""
      modifies this`loading, this`calls, this`callbacks
      ensures Valid()
      ensures calls == old(calls) + [UpdateUser(old(user).id, old(Payload()))]
      ensures callbacks == old(callbacks) + (if !updateOk then [] else if hasOnClose then [UserUpdated, Close] else [UserUpdated])
      ensures !loading
      ensures dataFetched
      ensures old(Payload())[2] == FormEntry("roleID", Text(roleID)) && roleID in RoleIds(roles)
      ensures old(Payload())[3] == FormEntry("facultyID", Text(facultyID)) && facultyID in FacultyIds(faculties)
    {
      loading := true;
      var data := Payload();
      calls := calls + [UpdateUser(user.id, data)];
      if updateOk {
        callbacks := callbacks + [UserUpdated];
        if hasOnClose {
          callbacks := callbacks + [Close];
        }
      }
      loading := false;
    }
  }
}
