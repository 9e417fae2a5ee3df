/**
 * The admin's user table (src/pages/Admin/user/userTable.jsx): one row per
 * filtered user, in order, with Update and Delete offered on every row whose
 * user is not an Admin.
 */
module UserTable {
  import opened Wrappers
  import opened Entities

  /** `user.roleID?.roleName !== 'Admin'`: a user without a role is not an Admin. */
  predicate ShowsActions(u: User)
  {
    !(u.role.Some? && u.role.value.roleName == "Admin")
  }

  /**
   * A rendered row: its user, and the user its Update and Delete buttons
   * hand to their callbacks, `None` when the buttons are not rendered.
   */
  datatype Row = Row(user: User, actionTarget: Option<User>)

  function RowOf(u: User): Row
  {
    Row(u, if ShowsActions(u) then Some(u) else None)
  }

  /**
   * The table body: one row per user in the order given; the buttons are on
   * exactly the non-Admin rows and pass that row's own user.
   */
  function Rows(users: seq<User>): (r: seq<Row>)
    ensures |r| == |users|
    ensures forall i :: 0 <= i < |users| ==> r[i].user == users[i]
    ensures forall i :: 0 <= i < |users| ==> (r[i].actionTarget.Some? <==> ShowsActions(users[i]))
    ensures forall i :: 0 <= i < |users| && r[i].actionTarget.Some? ==> r[i].actionTarget.value == users[i]
  {
    if users == [] then []
    else [RowOf(users[0])] + Rows(users[1..])
  }
}
