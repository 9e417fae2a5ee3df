/**
 * The admin's user management page (src/pages/Admin/UserManagement.jsx):
 * the fetched users, roles and faculties, the search and filter bar, the
 * create, update and delete flows and the notification snackbar.
 */
module UserManagement {
  import opened Wrappers
  import opened Entities
  import Seqs
  import Text
  import UserTable

  /**
   * One user passes the filter bar: the lower-cased username contains the
   * (already lower-cased) search term, and each non-empty select equals the
   * user's role name or faculty name. A user without a role or a faculty
   * fails a non-empty select of that kind.
   */
  predicate MatchesFilters(u: User, searchTerm: string, selectedRole: string, selectedFaculty: string)
  {
    && Text.Includes(Text.Lower(u.username), searchTerm)
    && (selectedRole == "" || (u.role.Some? && u.role.value.roleName == selectedRole))
    && (selectedFaculty == "" || (u.faculty.Some? && u.faculty.value.facultyName == selectedFaculty))
  }

  /** `filteredUsers`: the users passing the filter bar, in fetched order. */
  function FilterUsers(users: seq<User>, searchTerm: string, selectedRole: string, selectedFaculty: string)
    : (r: seq<User>)
    ensures forall u :: u in r <==> u in users && MatchesFilters(u, searchTerm, selectedRole, selectedFaculty)
    ensures Seqs.IsSubsequence(r, users)
  {
    var p := (u: User) => MatchesFilters(u, searchTerm, selectedRole, selectedFaculty);
    Seqs.FilterIsSubsequence(p, users);
    Seqs.Filter(p, users)
  }

  /** With an empty search and both selects on "all", every user is listed, in order. */
  lemma EmptyFiltersKeepAll(users: seq<User>)
    ensures FilterUsers(users, "", "", "") == users
  {
    forall u | u in users
      ensures MatchesFilters(u, "", "", "")
    {
      Text.EmptyNeedleIncluded(Text.Lower(u.username));
    }
    Seqs.FilterKeepsAll((u: User) => MatchesFilters(u, "", "", ""), users);
  }

  /** Typing more characters into the search only narrows the list. */
  lemma LongerSearchNarrows(users: seq<User>, term: string, more: string, selectedRole: string, selectedFaculty: string)
    ensures forall u :: u in FilterUsers(users, term + more, selectedRole, selectedFaculty)
                        ==> u in FilterUsers(users, term, selectedRole, selectedFaculty)
  {
    forall u | u in FilterUsers(users, term + more, selectedRole, selectedFaculty)
      ensures u in FilterUsers(users, term, selectedRole, selectedFaculty)
    {
      Text.IncludesPrefixOfNeedle(Text.Lower(u.username), term, more);
    }
  }

  /** The search ignores letter case: a term stored by `handleSearchChange` finds the same users whatever case was typed. */
  lemma SearchIgnoresCase(users: seq<User>, typed: string, selectedRole: string, selectedFaculty: string)
    ensures FilterUsers(users, Text.Lower(typed), selectedRole, selectedFaculty)
         == FilterUsers(users, Text.Lower(Text.Lower(typed)), selectedRole, selectedFaculty)
  {
    Text.LowerIdempotent(typed);
  }

  /** A backend call the page makes. */
  datatype Call = GetUsers | GetRoles | GetFaculties | DeleteUser(id: string)

  /** `Promise.all` starts the three fetches together. */
  const FetchCalls: seq<Call> := [GetUsers, GetRoles, GetFaculties]

  const FetchErrorMessage := "Error fetching data, please try again later."
  const CreatedMessage := "User created successfully!"
  const UpdatedMessage := "User updated successfully!"
  const DeletedMessage := "User deleted successfully!"
  const DeleteErrorMessage := "Error deleting user, please try again."

  /** What the page body shows below the filter bar. */
  datatype Body = Spinner | Table(rows: seq<UserTable.Row>)

  class Page {
    var users: seq<User>
    var roles: seq<Role>
    var faculties: seq<Faculty>
    var searchTerm: string
    var selectedRole: string
    var selectedFaculty: string
    var loading: bool
    var isCreateUserModalOpen: bool
    var confirmDeleteOpen: bool
    var userToDelete: Option<User>
    var isUpdateUserModalOpen: bool
    var userToUpdate: Option<User>
    var snackbarOpen: bool
    var snackbarMessage: string
    var hasFetchedData: bool
    /** The backend calls made, in order. */
    var calls: seq<Call>

    /**
     * Kept by every handler: the spinner is gone once data was fetched, the
     * delete dialog is open only with a user to delete, and the update modal
     * is open only with a user to update.
     */
    predicate Valid()
      reads this
    {
      && (hasFetchedData ==> !loading)
      && (confirmDeleteOpen ==> userToDelete.Some?)
      && (isUpdateUserModalOpen ==> userToUpdate.Some?)
    }

    /** The fetched lists: users, roles, faculties. */
    function Lists(): (seq<User>, seq<Role>, seq<Faculty>)
      reads this
    {
      (users, roles, faculties)
    }

    /** The snackbar: whether it is open, and its message. */
    function Notice(): (bool, string)
      reads this
    {
      (snackbarOpen, snackbarMessage)
    }

    /** The search term and the two filter selects. */
    function Filters(): (string, string, string)
      reads this
    {
      (searchTerm, selectedRole, selectedFaculty)
    }

    /** The create modal, the delete dialog and the update modal, with their users. */
    function Dialogs(): (bool, bool, Option<User>, bool, Option<User>)
      reads this
    {
      (isCreateUserModalOpen, confirmDeleteOpen, userToDelete, isUpdateUserModalOpen, userToUpdate)
    }

    constructor ()
      ensures Valid()
      ensures users == [] && roles == [] && faculties == [] && calls == []
      ensures searchTerm == "" && selectedRole == "" && selectedFaculty == ""
      ensures loading && !hasFetchedData && !snackbarOpen && snackbarMessage == ""
      ensures !isCreateUserModalOpen && !confirmDeleteOpen && userToDelete == None
      ensures !isUpdateUserModalOpen && userToUpdate == None
    {
      users, roles, faculties, calls := [], [], [], [];
      searchTerm, selectedRole, selectedFaculty := "", "", "";
      loading, hasFetchedData, snackbarOpen, snackbarMessage := true, false, false, "";
      isCreateUserModalOpen, confirmDeleteOpen, userToDelete := false, false, None;
      isUpdateUserModalOpen, userToUpdate := false, None;
    }

    /**
     * `fetchData`: all three lists replace the old ones together; any failure
     * keeps all three and shows the fetch error. Afterwards the spinner is off
     * and the page counts as fetched.
     */
    method FetchData(outcome: Response<(seq<User>, seq<Role>, seq<Faculty>)>)
      requires Valid()
      modifies this`calls, this`users, this`roles, this`faculties
      modifies this`snackbarOpen, this`snackbarMessage, this`loading, this`hasFetchedData
      ensures Valid()
      ensures calls == old(calls) + FetchCalls
      ensures Lists() == if outcome.Ok? then outcome.value else old(Lists())
      ensures Notice() == if outcome.Ok? then old(Notice()) else (true, FetchErrorMessage)
      ensures !loading && hasFetchedData
    {
      calls := calls + FetchCalls;
      if outcome.Ok? {
        users, roles, faculties := outcome.value.0, outcome.value.1, outcome.value.2;
      } else {
        snackbarMessage, snackbarOpen := FetchErrorMessage, true;
      }
      loading, hasFetchedData := false, true;
    }

    /** The mount effect: fetch while nothing has been fetched, otherwise nothing. */
    method MountEffect(outcome: Response<(seq<User>, seq<Role>, seq<Faculty>)>)
      requires Valid()
      modifies this`calls, this`users, this`roles, this`faculties
      modifies this`snackbarOpen, this`snackbarMessage, this`loading, this`hasFetchedData
      ensures Valid() && hasFetchedData && !loading
      ensures old(hasFetchedData) ==> calls == old(calls) && Lists() == old(Lists()) && Notice() == old(Notice())
      ensures !old(hasFetchedData) ==> calls == old(calls) + FetchCalls
      ensures !old(hasFetchedData) ==> Lists() == (if outcome.Ok? then outcome.value else old(Lists()))
      ensures !old(hasFetchedData) ==> Notice() == (if outcome.Ok? then old(Notice()) else (true, FetchErrorMessage))
    {
      if !hasFetchedData {
        FetchData(outcome);
      }
    }

    /** `handleSearchChange`: the stored term is the typed text lower-cased. */
    method HandleSearchChange(value: string)
      requires Valid()
      modifies this`searchTerm
      ensures Valid()
      ensures searchTerm == Text.Lower(value)
      ensures selectedRole == old(selectedRole) && selectedFaculty == old(selectedFaculty) && users == old(users)
      ensures calls == old(calls)
    {
      searchTerm := Text.Lower(value);
    }

    /** The role select: the stored filter is the chosen role name, or "" for all roles. */
    method HandleRoleFilterChange(value: string)
      requires Valid()
      modifies this`selectedRole
      ensures Valid()
      ensures selectedRole == value
      ensures searchTerm == old(searchTerm) && selectedFaculty == old(selectedFaculty) && users == old(users)
      ensures calls == old(calls)
    {
      selectedRole := value;
    }

    /** The faculty select: the stored filter is the chosen faculty name, or "" for all faculties. */
    method HandleFacultyFilterChange(value: string)
      requires Valid()
      modifies this`selectedFaculty
      ensures Valid() && selectedFaculty == value
      ensures searchTerm == old(searchTerm) && selectedRole == old(selectedRole) && users == old(users)
      ensures calls == old(calls)
    {
      selectedFaculty := value;
    }

    /** The list below the filter bar: a spinner while loading, else one table row per filtered user. */
    function Body(): (b: Body)
      reads this
      ensures loading <==> b.Spinner?
      ensures b.Table? ==> |b.rows| == |FilterUsers(users, searchTerm, selectedRole, selectedFaculty)|
      ensures b.Table? ==> forall i :: 0 <= i < |b.rows| ==> b.rows[i].user in users
    {
      if loading then Spinner else Table(UserTable.Rows(FilterUsers(users, searchTerm, selectedRole, selectedFaculty)))
    }

    /** The "Create New User" button and the create modal's close. */
    method SetCreateUserModalOpen(open: bool)
      requires Valid()
      modifies this`isCreateUserModalOpen
      ensures Valid() && isCreateUserModalOpen == open
      ensures calls == old(calls) && users == old(users) && snackbarMessage == old(snackbarMessage)
      ensures confirmDeleteOpen == old(confirmDeleteOpen) && isUpdateUserModalOpen == old(isUpdateUserModalOpen)
    {
      isCreateUserModalOpen := open;
    }

    /**
     * `handleUserCreated`: close the create modal and show the success
     * message; the refetch it starts settles afterwards, so a failed refetch
     * replaces the message with the fetch error.
     */
    method HandleUserCreated(refetch: Response<(seq<User>, seq<Role>, seq<Faculty>)>)
      requires Valid()
      modifies this`isCreateUserModalOpen
      modifies this`calls, this`users, this`roles, this`faculties
      modifies this`snackbarOpen, this`snackbarMessage, this`loading, this`hasFetchedData
      ensures Valid() && !isCreateUserModalOpen && snackbarOpen
      ensures calls == old(calls) + FetchCalls
      ensures snackbarMessage == (if refetch.Ok? then CreatedMessage else FetchErrorMessage)
      ensures !loading && hasFetchedData
      ensures Lists() == (if refetch.Ok? then refetch.value else old(Lists()))
      ensures confirmDeleteOpen == old(confirmDeleteOpen) && isUpdateUserModalOpen == old(isUpdateUserModalOpen)
    {
      isCreateUserModalOpen := false;
      snackbarMessage := CreatedMessage;
      snackbarOpen := true;
      FetchData(refetch);
    }

    /** A row's Update button: remember the user and open the update modal. */
    method OpenUpdateUserModal(u: User)
      requires Valid()
      modifies this`userToUpdate, this`isUpdateUserModalOpen
      ensures Valid() && userToUpdate == Some(u) && isUpdateUserModalOpen
      ensures calls == old(calls) && users == old(users) && snackbarMessage == old(snackbarMessage)
      ensures confirmDeleteOpen == old(confirmDeleteOpen) && userToDelete == old(userToDelete)
    {
      userToUpdate := Some(u);
      isUpdateUserModalOpen := true;
    }

    /** The Update button of row `i` of the table: the row's own user goes to `openUpdateUserModal`. */
    method ClickUpdate(i: nat)
      requires Valid() && Body().Table? && i < |Body().rows| && Body().rows[i].actionTarget.Some?
      modifies this`userToUpdate, this`isUpdateUserModalOpen
      ensures Valid() && isUpdateUserModalOpen
      ensures userToUpdate == Some(UserTable.Rows(FilterUsers(old(users), old(searchTerm), old(selectedRole), old(selectedFaculty)))[i].user)
      ensures calls == old(calls) && users == old(users) && userToDelete == old(userToDelete)
    {
      OpenUpdateUserModal(Body().rows[i].actionTarget.value);
    }

    /** The update modal's close: the remembered user stays. */
    method CloseUpdateUserModal()
      requires Valid()
      modifies this`isUpdateUserModalOpen
      ensures Valid() && !isUpdateUserModalOpen && userToUpdate == old(userToUpdate)
      ensures calls == old(calls) && users == old(users) && snackbarMessage == old(snackbarMessage)
    {
      isUpdateUserModalOpen := false;
    }

    /** `handleUserUpdated`: as for creation, with the update message. */
    method HandleUserUpdated(refetch: Response<(seq<User>, seq<Role>, seq<Faculty>)>)
      requires Valid()
      modifies this`isUpdateUserModalOpen
      modifies this`calls, this`users, this`roles, this`faculties
      modifies this`snackbarOpen, this`snackbarMessage, this`loading, this`hasFetchedData
      ensures Valid() && !isUpdateUserModalOpen && snackbarOpen
      ensures calls == old(calls) + FetchCalls
      ensures snackbarMessage == (if refetch.Ok? then UpdatedMessage else FetchErrorMessage)
      ensures !loading && hasFetchedData
      ensures Lists() == (if refetch.Ok? then refetch.value else old(Lists()))
      ensures userToUpdate == old(userToUpdate) && isCreateUserModalOpen == old(isCreateUserModalOpen)
    {
      isUpdateUserModalOpen := false;
      snackbarMessage := UpdatedMessage;
      snackbarOpen := true;
      FetchData(refetch);
    }

    /** A row's Delete button: remember the user and open the confirmation. */
    method OpenDeleteConfirmation(u: User)
      requires Valid()
      modifies this`userToDelete, this`confirmDeleteOpen
      ensures Valid() && userToDelete == Some(u) && confirmDeleteOpen
      ensures calls == old(calls) && users == old(users) && snackbarMessage == old(snackbarMessage)
      ensures isUpdateUserModalOpen == old(isUpdateUserModalOpen) && userToUpdate == old(userToUpdate)
    {
      userToDelete := Some(u);
      confirmDeleteOpen := true;
    }

    /** The Delete button of row `i` of the table: the row's own user goes to `openDeleteConfirmation`. */
    method ClickDelete(i: nat)
      requires Valid() && Body().Table? && i < |Body().rows| && Body().rows[i].actionTarget.Some?
      modifies this`userToDelete, this`confirmDeleteOpen
      ensures Valid() && confirmDeleteOpen
      ensures userToDelete == Some(UserTable.Rows(FilterUsers(old(users), old(searchTerm), old(selectedRole), old(selectedFaculty)))[i].user)
      ensures userToDelete.value.role.Some? ==> userToDelete.value.role.value.roleName != "Admin"
      ensures calls == old(calls) && users == old(users) && userToUpdate == old(userToUpdate)
    {
      OpenDeleteConfirmation(Body().rows[i].actionTarget.value);
    }

    /** Cancel, or closing the dialog: the remembered user stays. */
    method CancelDelete()
      requires Valid()
      modifies this`confirmDeleteOpen
      ensures Valid() && !confirmDeleteOpen && userToDelete == old(userToDelete)
      ensures calls == old(calls) && users == old(users) && snackbarMessage == old(snackbarMessage)
    {
      confirmDeleteOpen := false;
    }

    /**
     * `handleDeleteUser`: without a remembered user nothing happens. Otherwise
     * delete by id; on success show the success message and refetch (the
     * refetch settles last, so its failure wins the snackbar); on failure show
     * the delete error. Either way the dialog closes and the user is forgotten.
     */
    method HandleDeleteUser(deleteOk: bool, refetch: Response<(seq<User>, seq<Role>, seq<Faculty>)>)
      requires Valid()
      modifies this`calls, this`users, this`roles, this`faculties, this`snackbarOpen, this`snackbarMessage
      modifies this`loading, this`hasFetchedData, this`confirmDeleteOpen, this`userToDelete
      ensures Valid()
      ensures old(userToDelete).None? ==> calls == old(calls) && Lists() == old(Lists()) && Notice() == old(Notice())
                                          && userToDelete == old(userToDelete) && confirmDeleteOpen == old(confirmDeleteOpen)
      ensures old(userToDelete).Some? ==> !confirmDeleteOpen && userToDelete == None && snackbarOpen
      ensures old(userToDelete).Some? && deleteOk ==>
                && calls == old(calls) + [DeleteUser(old(userToDelete).value.id)] + FetchCalls
                && snackbarMessage == (if refetch.Ok? then DeletedMessage else FetchErrorMessage)
                && Lists() == (if refetch.Ok? then refetch.value else old(Lists()))
      ensures old(userToDelete).Some? && !deleteOk ==>
                && calls == old(calls) + [DeleteUser(old(userToDelete).value.id)]
                && snackbarMessage == DeleteErrorMessage && Lists() == old(Lists())
      ensures old(userToDelete).Some? && deleteOk ==> !loading && hasFetchedData
      ensures old(userToDelete).None? || !deleteOk ==> loading == old(loading) && hasFetchedData == old(hasFetchedData)
    {
      if userToDelete.Some? {
        calls := calls + [DeleteUser(userToDelete.value.id)];
        snackbarMessage := if deleteOk then DeletedMessage else DeleteErrorMessage;
        snackbarOpen, confirmDeleteOpen, userToDelete := true, false, None;
        if deleteOk {
          FetchData(refetch);
        }
      }
    }

    /** `handleSnackbarClose`: hide the snackbar, keeping its message. */
    method HandleSnackbarClose()
      requires Valid()
      modifies this`snackbarOpen
      ensures Valid() && !snackbarOpen && snackbarMessage == old(snackbarMessage)
      ensures calls == old(calls) && users == old(users) && confirmDeleteOpen == old(confirmDeleteOpen)
    {
      snackbarOpen := false;
    }
  }
}
