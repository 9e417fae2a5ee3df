/**
 * Rules shared by the user forms (src/pages/Admin/user/createUserForm.jsx and
 * the two `updateUserForm.jsx` files): the role options offered, the
 * preselection of a role or faculty by id, and the FormData payload.
 */
module UserForms {
  import opened Wrappers
  import opened Entities
  import Seqs

  predicate NotAdmin(role: Role)
  {
    role.roleName != "Admin"
  }

  /** `roles.filter(role => role.roleName !== 'Admin')`: every role but Admin, in fetched order. */
  function NonAdminRoles(roles: seq<Role>): (r: seq<Role>)
    ensures forall role :: role in r <==> role in roles && role.roleName != "Admin"
    ensures Seqs.IsSubsequence(r, roles)
  {
    Seqs.FilterIsSubsequence(NotAdmin, roles);
    Seqs.Filter(NotAdmin, roles)
  }

  /** `list.find(x => x._id === wanted)?._id`: the id of the first entry with that id. */
  function FindId(ids: seq<string>, wanted: string): (r: Option<string>)
    ensures r.Some? <==> wanted in ids
    ensures r.Some? ==> r.value == wanted
  {
    if ids == [] then None
    else if ids[0] == wanted then Some(ids[0])
    else FindId(ids[1..], wanted)
  }

  /**
   * The preselected value of a role or faculty select: the user's own id when
   * the fetched list has it, and `''` when it does not or the user has none.
   */
  function Preselect(ids: seq<string>, wanted: Option<string>): (r: string)
    ensures wanted.Some? && wanted.value in ids ==> r == wanted.value
    ensures wanted.None? || wanted.value !in ids ==> r == ""
  {
    match wanted
    case None => ""
    case Some(w) => FindId(ids, w).GetOr("")
  }

  /** The `_id` of each entry, in list order: the values the options of a select carry. */
  function Ids<T>(entries: seq<T>, id: T -> string): (r: seq<string>)
    ensures |r| == |entries| && forall i :: 0 <= i < |entries| ==> r[i] == id(entries[i])
  {
    seq(|entries|, i requires 0 <= i < |entries| => id(entries[i]))
  }

  function RoleIds(roles: seq<Role>): seq<string>
  {
    Ids(roles, (role: Role) => role.id)
  }

  function FacultyIds(faculties: seq<Faculty>): seq<string>
  {
    Ids(faculties, (f: Faculty) => f.id)
  }

  /** An id taken from the non-Admin options belongs to a fetched role that is not Admin. */
  lemma OfferedRoleIsNotAdmin(roles: seq<Role>, id: string)
    requires id in RoleIds(NonAdminRoles(roles))
    ensures exists role :: role in roles && role.id == id && role.roleName != "Admin"
  {
    var offered := NonAdminRoles(roles);
    var k :| 0 <= k < |offered| && RoleIds(offered)[k] == id;
    assert offered[k] in offered;
  }

  /** Every option of the Role select carries the id of a fetched role. */
  lemma OfferedRoleIsFetched(roles: seq<Role>, i: nat)
    requires i < |NonAdminRoles(roles)|
    ensures NonAdminRoles(roles)[i].id in RoleIds(roles)
  {
    var role := NonAdminRoles(roles)[i];
    assert role in roles;
    var j :| 0 <= j < |roles| && roles[j] == role;
    assert RoleIds(roles)[j] == role.id;
  }

  /** The role preselected for `user`: the id of the fetched role equal to the user's role, else `''`. */
  function PreselectRole(roles: seq<Role>, user: User): (r: string)
    ensures r == "" || (user.role.Some? && r == user.role.value.id && r in RoleIds(roles))
    ensures user.role.Some? && (exists i :: 0 <= i < |roles| && roles[i].id == user.role.value.id) ==> r == user.role.value.id
  {
    Preselect(RoleIds(roles), if user.role.Some? then Some(user.role.value.id) else None)
  }

  /** The faculty preselected for `user`, by the same rule. */
  function PreselectFaculty(faculties: seq<Faculty>, user: User): (r: string)
    ensures r == "" || (user.faculty.Some? && r == user.faculty.value.id && r in FacultyIds(faculties))
    ensures user.faculty.Some? && (exists i :: 0 <= i < |faculties| && faculties[i].id == user.faculty.value.id)
            ==> r == user.faculty.value.id
  {
    Preselect(FacultyIds(faculties), if user.faculty.Some? then Some(user.faculty.value.id) else None)
  }

  /** The avatar a form holds: the user's stored URL, or a file chosen in the browser. */
  datatype Avatar = AvatarUrl(url: string) | AvatarFile(file: LocalFile)

  function AvatarValue(a: Avatar): FormValue
  {
    match a
    case AvatarUrl(u) => Text(u)
    case AvatarFile(f) => Blob(f)
  }

  /** `user.avatar || null`: an empty or missing URL means no avatar. */
  function StoredAvatar(user: User): (a: Option<Avatar>)
    ensures a.Some? <==> user.avatar.Some? && user.avatar.value != ""
  {
    if user.avatar.Some? && user.avatar.value != "" then Some(AvatarUrl(user.avatar.value)) else None
  }

  /** The four text fields in order, then the avatar only when there is one. */
  function UserPayload(username: string, email: string, roleID: string, facultyID: string, avatar: Option<Avatar>)
    : (p: seq<FormEntry>)
    ensures |p| == if avatar.Some? then 5 else 4
    ensures p[0] == FormEntry("username", Text(username)) && p[1] == FormEntry("email", Text(email))
    ensures p[2] == FormEntry("roleID", Text(roleID)) && p[3] == FormEntry("facultyID", Text(facultyID))
    ensures avatar.Some? ==> p[4] == FormEntry("avatar", AvatarValue(avatar.value))
  {
    [FormEntry("username", Text(username)), FormEntry("email", Text(email)),
     FormEntry("roleID", Text(roleID)), FormEntry("facultyID", Text(facultyID))]
    + (if avatar.Some? then [FormEntry("avatar", AvatarValue(avatar.value))] else [])
  }

  /** A backend call one of the user forms makes. */
  datatype Call =
    | GetRoles
    | GetFaculties
    | CreateUser(data: seq<FormEntry>)
    | UpdateUser(id: string, data: seq<FormEntry>)

  /** The parent's callbacks a form invokes, in order. */
  datatype Callback = CreatedUser | UserUpdated | Close
}
