/**
 * The faculty list of the university marketing manager
 * (src/pages/UMM/faculties/FacultiesManagement.jsx): fetch once, create by
 * name, edit a name in a dialog, delete after confirmation, with an error
 * and a success snackbar.
 */
module FacultiesManagement {
  import opened Wrappers
  import opened Entities

  /** A backend call the page makes. `DeleteFaculty` carries whatever id was remembered. */
  datatype Call =
    | GetFaculties
    | CreateFaculty(facultyName: string)
    | UpdateFaculty(id: string, facultyName: string)
    | DeleteFaculty(target: Option<string>)

  const FetchError := "Error fetching faculties. Please try again."
  const CreateError := "Error creating faculty. Please try again."
  const UpdateError := "Error updating faculty. Please try again."
  const DeleteError := "Error deleting faculty. Please try again."
  const DeletedMessage := "Faculty deleted successfully!"

  function CreatedMessage(name: string): string
  {
    "Faculty \"" + name + "\" created successfully!"
  }

  function UpdatedMessage(name: string): string
  {
    "Faculty \"" + name + "\" updated successfully!"
  }

  /** The faculty the table lists under `id`, if any: the first one. */
  function FacultyWithId(faculties: seq<Faculty>, id: string): (r: Option<Faculty>)
    ensures r.Some? ==> r.value in faculties && r.value.id == id
    ensures r.None? ==> forall f :: f in faculties ==> f.id != id
  {
    if faculties == [] then None
    else if faculties[0].id == id then Some(faculties[0])
    else FacultyWithId(faculties[1..], id)
  }

  class Page {
    var hasFetchData: bool
    /** The "Add New Faculty" text field. */
    var facultyName: string
    var faculties: seq<Faculty>
    /** The faculty shown by the View dialog. */
    var selectedFaculty: Option<Faculty>
    /** The faculty in the Edit dialog, with the name as edited so far. */
    var editingFaculty: Option<Faculty>
    var confirmDeleteDialogOpen: bool
    var facultyToDelete: Option<string>
    /** The error snackbar is open exactly when this is set. */
    var error: Option<string>
    /** The success snackbar is open exactly when this is non-empty. */
    var successMessage: string
    var calls: seq<Call>

    /** Kept by every handler: the delete confirmation is open only with an id to delete. */
    predicate Valid()
      reads this
    {
      confirmDeleteDialogOpen ==> facultyToDelete.Some?
    }

    constructor ()
      ensures Valid()
      ensures !hasFetchData && facultyName == "" && faculties == [] && selectedFaculty == None
      ensures editingFaculty == None && !confirmDeleteDialogOpen && facultyToDelete == None
      ensures error == None && successMessage == "" && calls == []
    {
      hasFetchData, facultyName, faculties, selectedFaculty := false, "", [], None;
      editingFaculty, confirmDeleteDialogOpen, facultyToDelete := None, false, None;
      error, successMessage, calls := None, "", [];
    }

    /** `fetchData`: the list replaces `faculties`, or the fetch error is shown; the page then counts as fetched. */
    method FetchData(outcome: Response<seq<Faculty>>)
      requires Valid()
      modifies this`calls, this`faculties, this`error, this`hasFetchData
      ensures Valid() && hasFetchData
      ensures calls == old(calls) + [GetFaculties]
      ensures outcome.Ok? ==> faculties == outcome.value && error == old(error)
      ensures outcome.Failed? ==> faculties == old(faculties) && error == Some(FetchError)
      ensures facultyName == old(facultyName) && successMessage == old(successMessage)
      ensures selectedFaculty == old(selectedFaculty) && editingFaculty == old(editingFaculty)
      ensures confirmDeleteDialogOpen == old(confirmDeleteDialogOpen) && facultyToDelete == old(facultyToDelete)
    {
      calls := calls + [GetFaculties];
      match outcome {
        case Ok(list) => faculties := list;
        case Failed => error := Some(FetchError);
      }
      hasFetchData := true;
    }

    /** The mount effect: fetch while nothing has been fetched, otherwise nothing. */
    method MountEffect(outcome: Response<seq<Faculty>>)
      requires Valid()
      modifies this`calls, this`faculties, this`error, this`hasFetchData
      ensures Valid() && hasFetchData
      ensures old(hasFetchData) ==> calls == old(calls) && faculties == old(faculties) && error == old(error)
      ensures !old(hasFetchData) ==> calls == old(calls) + [GetFaculties]
      ensures !old(hasFetchData) && outcome.Ok? ==> faculties == outcome.value && error == old(error)
      ensures !old(hasFetchData) && outcome.Failed? ==> faculties == old(faculties) && error == Some(FetchError)
    {
      if !hasFetchData {
        FetchData(outcome);
      }
    }

    /** The "Faculty Name" field takes what was typed. */
    method SetFacultyName(value: string)
      requires Valid()
      modifies this`facultyName
      ensures Valid() && facultyName == value
      ensures faculties == old(faculties) && calls == old(calls) && error == old(error)
      ensures successMessage == old(successMessage) && editingFaculty == old(editingFaculty)
    {
      facultyName := value;
    }

    /**
     * `handleCreateFaculty`: the typed name is sent as it is, empty or not.
     * On success the message names the faculty the backend returned, the
     * field and the error are cleared, and a refetch follows (settling last,
     * so its failure shows the fetch error). On failure the create error is
     * shown and the field is kept.
     */
    method HandleCreateFaculty(outcome: Response<Faculty>, refetch: Response<seq<Faculty>>)
      requires Valid()
      modifies this`successMessage, this`facultyName, this`calls, this`faculties, this`error, this`hasFetchData
      ensures Valid()
      ensures outcome.Ok? ==>
                && calls == old(calls) + [CreateFaculty(old(facultyName)), GetFaculties]
                && successMessage == CreatedMessage(outcome.value.facultyName) && facultyName == ""
                && error == (if refetch.Ok? then None else Some(FetchError))
                && faculties == (if refetch.Ok? then refetch.value else old(faculties))
      ensures outcome.Failed? ==>
                && calls == old(calls) + [CreateFaculty(old(facultyName))]
                && error == Some(CreateError) && facultyName == old(facultyName)
                && successMessage == old(successMessage) && faculties == old(faculties)
      ensures hasFetchData == (old(hasFetchData) || outcome.Ok?)
      ensures editingFaculty == old(editingFaculty) && selectedFaculty == old(selectedFaculty)
      ensures confirmDeleteDialogOpen == old(confirmDeleteDialogOpen) && facultyToDelete == old(facultyToDelete)
    {
      calls := calls + [CreateFaculty(facultyName)];
      match outcome {
        case Ok(created) =>
          successMessage := CreatedMessage(created.facultyName);
          facultyName := "";
          error := None;
          FetchData(refetch);
        case Failed =>
          error := Some(CreateError);
      }
    }

    /** The row's Edit button: put that faculty into the Edit dialog. */
    method StartEditing(f: Faculty)
      requires Valid()
      modifies this`editingFaculty
      ensures Valid() && editingFaculty == Some(f)
      ensures faculties == old(faculties) && calls == old(calls) && error == old(error)
      ensures successMessage == old(successMessage) && facultyName == old(facultyName)
    {
      editingFaculty := Some(f);
    }

    /** The Edit dialog's name field: only the name of the faculty being edited changes. */
    method EditFacultyName(value: string)
      requires Valid() && editingFaculty.Some?
      modifies this`editingFaculty
      ensures Valid() && editingFaculty == Some(old(editingFaculty).value.(facultyName := value))
      ensures faculties == old(faculties) && calls == old(calls) && error == old(error)
      ensures successMessage == old(successMessage) && facultyName == old(facultyName)
    {
      editingFaculty := Some(editingFaculty.value.(facultyName := value));
    }

    /** Cancel, or closing the Edit dialog. */
    method CancelEditing()
      requires Valid()
      modifies this`editingFaculty
      ensures Valid() && editingFaculty == None
      ensures faculties == old(faculties) && calls == old(calls) && error == old(error)
      ensures successMessage == old(successMessage) && facultyName == old(facultyName)
    {
      editingFaculty := None;
    }

    /**
     * `handleUpdateFaculty`: send the edited name under the edited id. On
     * success the message names the faculty returned, the dialog closes and
     * a refetch follows. On failure, or with no faculty being edited (the
     * property access throws inside the `try`), the update error is shown
     * and the dialog stays.
     */
    method HandleUpdateFaculty(outcome: Response<Faculty>, refetch: Response<seq<Faculty>>)
      requires Valid()
      modifies this`successMessage, this`editingFaculty, this`calls, this`faculties, this`error, this`hasFetchData
      ensures Valid()
      ensures old(editingFaculty).None? ==>
                calls == old(calls) && error == Some(UpdateError) && editingFaculty == None
                && successMessage == old(successMessage) && faculties == old(faculties)
      ensures old(editingFaculty).Some? && outcome.Ok? ==>
                && calls == old(calls) + [UpdateFaculty(old(editingFaculty).value.id, old(editingFaculty).value.facultyName), GetFaculties]
                && successMessage == UpdatedMessage(outcome.value.facultyName) && editingFaculty == None
                && error == (if refetch.Ok? then old(error) else Some(FetchError))
                && faculties == (if refetch.Ok? then refetch.value else old(faculties))
      ensures old(editingFaculty).Some? && outcome.Failed? ==>
                && calls == old(calls) + [UpdateFaculty(old(editingFaculty).value.id, old(editingFaculty).value.facultyName)]
                && error == Some(UpdateError) && editingFaculty == old(editingFaculty)
                && successMessage == old(successMessage) && faculties == old(faculties)
      ensures hasFetchData == (old(hasFetchData) || (old(editingFaculty).Some? && outcome.Ok?))
      ensures facultyName == old(facultyName) && selectedFaculty == old(selectedFaculty)
      ensures confirmDeleteDialogOpen == old(confirmDeleteDialogOpen) && facultyToDelete == old(facultyToDelete)
    {
      if editingFaculty.None? {
        error := Some(UpdateError);
        return;
      }
      calls := calls + [UpdateFaculty(editingFaculty.value.id, editingFaculty.value.facultyName)];
      match outcome {
        case Ok(updated) =>
          successMessage := UpdatedMessage(updated.facultyName);
          editingFaculty := None;
          FetchData(refetch);
        case Failed =>
          error := Some(UpdateError);
      }
    }

    /** The row's Delete button: remember the faculty's id and open the confirmation. */
    method OpenConfirmDeleteDialog(id: string)
      requires Valid()
      modifies this`facultyToDelete, this`confirmDeleteDialogOpen
      ensures Valid() && facultyToDelete == Some(id) && confirmDeleteDialogOpen
      ensures faculties == old(faculties) && calls == old(calls) && error == old(error)
      ensures successMessage == old(successMessage) && editingFaculty == old(editingFaculty)
      ensures selectedFaculty == old(selectedFaculty)
    {
      facultyToDelete := Some(id);
      confirmDeleteDialogOpen := true;
    }

    /** Cancel, or closing the confirmation: the remembered id stays. */
    method CancelDelete()
      requires Valid()
      modifies this`confirmDeleteDialogOpen
      ensures Valid() && !confirmDeleteDialogOpen && facultyToDelete == old(facultyToDelete)
      ensures faculties == old(faculties) && calls == old(calls) && error == old(error)
      ensures successMessage == old(successMessage)
    {
      confirmDeleteDialogOpen := false;
    }

    /**
     * `handleDeleteFaculty`: delete the remembered id. On success show the
     * message, close the confirmation, forget the id and refetch. On failure
     * show the delete error and leave the confirmation as it is.
     */
    method HandleDeleteFaculty(deleteOk: bool, refetch: Response<seq<Faculty>>)
      requires Valid()
      modifies this`successMessage, this`confirmDeleteDialogOpen, this`facultyToDelete, this`calls, this`faculties, this`error, this`hasFetchData
      ensures Valid()
      ensures deleteOk ==>
                && calls == old(calls) + [DeleteFaculty(old(facultyToDelete)), GetFaculties]
                && successMessage == DeletedMessage && !confirmDeleteDialogOpen && facultyToDelete == None
                && error == (if refetch.Ok? then old(error) else Some(FetchError))
                && faculties == (if refetch.Ok? then refetch.value else old(faculties))
      ensures !deleteOk ==>
                && calls == old(calls) + [DeleteFaculty(old(facultyToDelete))]
                && error == Some(DeleteError) && successMessage == old(successMessage)
                && confirmDeleteDialogOpen == old(confirmDeleteDialogOpen) && facultyToDelete == old(facultyToDelete)
                && faculties == old(faculties)
      ensures hasFetchData == (old(hasFetchData) || deleteOk)
      ensures facultyName == old(facultyName) && editingFaculty == old(editingFaculty)
      ensures selectedFaculty == old(selectedFaculty)
    {
      calls := calls + [DeleteFaculty(facultyToDelete)];
      if deleteOk {
        successMessage := DeletedMessage;
        confirmDeleteDialogOpen := false;
        facultyToDelete := None;
        FetchData(refetch);
      } else {
        error := Some(DeleteError);
      }
    }

    /** The View button and the View dialog's close. */
    method SetSelectedFaculty(f: Option<Faculty>)
      requires Valid()
      modifies this`selectedFaculty
      ensures Valid() && selectedFaculty == f
      ensures faculties == old(faculties) && calls == old(calls) && error == old(error)
      ensures confirmDeleteDialogOpen == old(confirmDeleteDialogOpen) && facultyToDelete == old(facultyToDelete)
    {
      selectedFaculty := f;
    }

    /** Closing the error snackbar. */
    method CloseError()
      requires Valid()
      modifies this`error
      ensures Valid() && error == None
      ensures faculties == old(faculties) && calls == old(calls) && successMessage == old(successMessage)
    {
      error := None;
    }

    /** Closing the success snackbar. */
    method CloseSuccess()
      requires Valid()
      modifies this`successMessage
      ensures Valid() && successMessage == ""
      ensures faculties == old(faculties) && calls == old(calls) && error == old(error)
    {
      successMessage := "";
    }

    /**
     * The faculty the confirmation names as written: the one last opened
     * with View, which has nothing to do with the faculty being deleted.
     */
    function DeleteSubjectAsWritten(): Option<Faculty>
      reads this
    {
      selectedFaculty
    }

    /** The faculty the confirmation is meant to name: the listed faculty with the remembered id. */
    function DeleteSubject(): (r: Option<Faculty>)
      reads this
      ensures facultyToDelete.Some? && r.Some? ==> r.value in faculties && r.value.id == facultyToDelete.value
      ensures facultyToDelete.Some? && (exists f :: f in faculties && f.id == facultyToDelete.value) ==> r.Some?
      ensures facultyToDelete.None? ==> r.None?
    {
      if facultyToDelete.Some? then FacultyWithId(faculties, facultyToDelete.value) else None
    }
  }

  /**
   * Opening the confirmation for a listed faculty without having used View
   * names no faculty as written, while the intended subject is that faculty.
   */
  lemma DeleteSubjectMismatch(p: Page, f: Faculty)
    requires p.Valid() && p.selectedFaculty == None && p.faculties == [f] && p.facultyToDelete == Some(f.id)
    ensures p.DeleteSubjectAsWritten() == None
    ensures p.DeleteSubject() == Some(f)
  {
  }
}
