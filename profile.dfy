/**
 * The signed-in user's profile page (src/pages/public/Profile.jsx): fetch the
 * user for the session token, edit the username and avatar, save or cancel.
 */
module Profile {
  import opened Wrappers
  import opened Entities

  /** A backend call the page makes. */
  datatype Call =
    | GetMe(token: string)
    | UpdateProfile(token: string, userId: string, username: string, avatar: Option<string>)

  const FetchError := "Failed to fetch user data."
  const SaveError := "Failed to update profile."

  /** A session token is usable when it is present and not the empty string. */
  predicate Truthy(token: Option<string>)
  {
    token.Some? && token.value != ""
  }

  /** What the page renders. */
  datatype View =
    | Spinner
    | ErrorAlert(message: string)
    | NoUserData
    /** Rendering the details reads the role's and the faculty's names, which throws when either is missing. */
    | RenderCrash
    | Details(user: User, editing: bool, username: string, avatar: Option<string>)

  class Page {
    /** The token from the user context. */
    var token: Option<string>
    var user: Option<User>
    var loading: bool
    var error: Option<string>
    var isEditing: bool
    var editedUsername: string
    var editedAvatar: Option<string>
    var calls: seq<Call>

    /** Kept by every handler: editing happens only on a loaded user. */
    predicate Valid()
      reads this
    {
      isEditing ==> user.Some?
    }

    constructor (token: Option<string>)
      ensures Valid()
      ensures this.token == token && user == None && loading && error == None && !isEditing
      ensures editedUsername == "" && editedAvatar == Some("") && calls == []
    {
      this.token := token;
      user, loading, error, isEditing := None, true, None, false;
      editedUsername, editedAvatar, calls := "", Some(""), [];
    }

    /** `fetchUserData`: the fetched user is stored and copied into the edit fields; a failure sets the error. */
    method FetchUserData(outcome: Response<User>)
      requires Valid() && Truthy(token)
      modifies this`loading, this`calls, this`user, this`editedUsername, this`editedAvatar, this`error
      ensures Valid() && !loading && token == old(token)
      ensures calls == old(calls) + [GetMe(token.value)]
      ensures outcome.Ok? ==> user == Some(outcome.value) && editedUsername == outcome.value.username
                              && editedAvatar == outcome.value.avatar && error == old(error)
      ensures outcome.Failed? ==> user == old(user) && editedUsername == old(editedUsername)
                                  && editedAvatar == old(editedAvatar) && error == Some(FetchError)
      ensures isEditing == old(isEditing)
    {
      loading := true;
      calls := calls + [GetMe(token.value)];
      match outcome {
        case Ok(u) =>
          user := Some(u);
          editedUsername, editedAvatar := u.username, u.avatar;
        case Failed =>
          error := Some(FetchError);
      }
      loading := false;
    }

    /** The effect on the context token: with a usable token fetch the user, otherwise just stop loading. */
    method TokenEffect(t: Option<string>, outcome: Response<User>)
      requires Valid()
      modifies this`token, this`loading, this`calls, this`user, this`editedUsername, this`editedAvatar, this`error
      ensures Valid() && token == t && !loading
      ensures Truthy(t) ==> calls == old(calls) + [GetMe(t.value)]
                            && user == (if outcome.Ok? then Some(outcome.value) else old(user))
      ensures !Truthy(t) ==> calls == old(calls) && user == old(user) && error == old(error)
      ensures Truthy(t) && outcome.Ok? ==> editedUsername == outcome.value.username && editedAvatar == outcome.value.avatar
                                           && error == old(error)
      ensures Truthy(t) && outcome.Failed? ==> editedUsername == old(editedUsername) && editedAvatar == old(editedAvatar)
                                               && error == Some(FetchError)
      ensures !Truthy(t) ==> editedUsername == old(editedUsername) && editedAvatar == old(editedAvatar)
    {
      token := t;
      if Truthy(token) {
        FetchUserData(outcome);
      } else {
        loading := false;
      }
    }

    /** "Edit Profile", shown only with a loaded user. */
    method HandleEditClick()
      requires Valid() && user.Some?
      modifies this`isEditing
      ensures Valid() && isEditing
      ensures user == old(user) && editedUsername == old(editedUsername) && editedAvatar == old(editedAvatar)
      ensures calls == old(calls) && error == old(error) && loading == old(loading)
    {
      isEditing := true;
    }

    /** The username field, shown while editing. */
    method SetEditedUsername(value: string)
      requires Valid() && isEditing
      modifies this`editedUsername
      ensures Valid() && editedUsername == value && isEditing
      ensures user == old(user) && editedAvatar == old(editedAvatar) && calls == old(calls) && error == old(error)
    {
      editedUsername := value;
    }

    /** The avatar picker: once the chosen file has been read, its data URL becomes the edited avatar. */
    method HandleAvatarLoaded(dataUrl: string)
      requires Valid()
      modifies this`editedAvatar
      ensures Valid() && editedAvatar == Some(dataUrl)
      ensures user == old(user) && editedUsername == old(editedUsername) && isEditing == old(isEditing)
      ensures calls == old(calls) && error == old(error)
    {
      editedAvatar := Some(dataUrl);
    }

    /** Cancel: leave editing and put the user's own username and avatar back into the fields. */
    method HandleCancelClick()
      requires Valid() && isEditing
      modifies this`isEditing, this`editedUsername, this`editedAvatar
      ensures Valid() && !isEditing
      ensures editedUsername == old(user).value.username && editedAvatar == old(user).value.avatar
      ensures user == old(user) && calls == old(calls) && error == old(error) && loading == old(loading)
    {
      isEditing := false;
      editedUsername, editedAvatar := user.value.username, user.value.avatar;
    }

    /**
     * Save: send the edited username and avatar for the user's id. On
     * success the page's copy of the user takes both and editing ends; on
     * failure the error is set, which replaces the whole page by the alert.
     */
    method HandleSaveClick(saveOk: bool)
      requires Valid() && isEditing
      modifies this`calls, this`user, this`isEditing, this`error
      ensures Valid()
      ensures calls == old(calls) + [UpdateProfile(TokenText(old(token)), old(user).value.id, old(editedUsername), old(editedAvatar))]
      ensures saveOk ==> !isEditing && error == old(error)
                         && user == Some(old(user).value.(username := old(editedUsername), avatar := old(editedAvatar)))
      ensures !saveOk ==> isEditing && error == Some(SaveError) && user == old(user)
      ensures !saveOk && !loading ==> View() == ErrorAlert(SaveError)
      ensures editedUsername == old(editedUsername) && editedAvatar == old(editedAvatar)
      ensures token == old(token) && loading == old(loading)
    {
      calls := calls + [UpdateProfile(TokenText(token), user.value.id, editedUsername, editedAvatar)];
      if saveOk {
        user := Some(user.value.(username := editedUsername, avatar := editedAvatar));
        isEditing := false;
      } else {
        error := Some(SaveError);
      }
    }

    /**
     * The page: a spinner while loading, then the error alert if any error
     * was ever set, then the user's details (the edited values while
     * editing), or a notice when there is no user. The details show the
     * role's and the faculty's names in both modes, so a user without
     * either makes the render throw.
     */
    function View(): (v: View)
      reads this
      ensures loading <==> v == Spinner
      ensures !loading && error.Some? ==> v == ErrorAlert(error.value)
      ensures v.RenderCrash? <==> !loading && error.None? && user.Some? && (user.value.role.None? || user.value.faculty.None?)
      ensures v.Details? <==> !loading && error.None? && user.Some? && user.value.role.Some? && user.value.faculty.Some?
      ensures v == NoUserData <==> !loading && error.None? && user.None?
      ensures v.Details? ==> v.user == user.value && v.editing == isEditing
      ensures v.Details? && isEditing ==> v.username == editedUsername && v.avatar == editedAvatar
      ensures v.Details? && !isEditing ==> v.username == user.value.username && v.avatar == user.value.avatar
    {
      if loading then Spinner
      else if error.Some? then ErrorAlert(error.value)
      else if user.None? then NoUserData
      else if user.value.role.None? || user.value.faculty.None? then RenderCrash
      else if isEditing then Details(user.value, true, editedUsername, editedAvatar)
      else Details(user.value, false, user.value.username, user.value.avatar)
    }
  }

  /** The token as it is interpolated into the request: a missing token becomes the text "null". */
  function TokenText(token: Option<string>): string
  {
    match token
    case Some(t) => t
    case None => "null"
  }
}
