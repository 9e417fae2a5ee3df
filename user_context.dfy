/**
 * The session provider (src/context/UserContext.jsx): the signed-in user and
 * token, kept in session storage so that a reload restores them.
 */
module UserContext {
  import opened Wrappers
  import opened Json

  const UserKey := "user"
  const TokenKey := "token"

  /**
   * What the mount effect restores from `storage`: the parsed user and the
   * token, when the parsed user is truthy and the token is a non-empty
   * string. A missing user key parses as `null`; text that does not parse
   * makes `JSON.parse` throw, and nothing is restored.
   */
  function SavedSession(storage: map<string, string>): (r: Option<(Json, string)>)
    ensures r.Some? ==> UserKey in storage && TokenKey in storage && storage[TokenKey] == r.value.1 && r.value.1 != ""
    ensures r.Some? ==> Parse(storage[UserKey]) == Some(r.value.0) && Truthy(r.value.0)
    ensures r.None? ==> UserKey !in storage || TokenKey !in storage || storage[TokenKey] == ""
                        || Parse(storage[UserKey]).None? || !Truthy(Parse(storage[UserKey]).value)
  {
    var savedUser := if UserKey in storage then Parse(storage[UserKey]) else Some(JNull);
    var savedToken := if TokenKey in storage then Some(storage[TokenKey]) else None;
    if savedUser.Some? && Truthy(savedUser.value) && savedToken.Some? && savedToken.value != "" then
      Some((savedUser.value, savedToken.value))
    else
      None
  }

  /** The storage after `login`: both keys written, every other key as it was. */
  function StoredByLogin(storage: map<string, string>, u: Json, t: string): map<string, string>
  {
    storage[UserKey := Stringify(u)][TokenKey := t]
  }

  /** The storage after `logout`: both keys removed, every other key as it was. */
  function StoredByLogout(storage: map<string, string>): map<string, string>
  {
    storage - {UserKey, TokenKey}
  }

  /** A reload after `login` restores exactly the user and token passed to it, when they are truthy. */
  lemma RestoreAfterLogin(storage: map<string, string>, u: Json, t: string)
    ensures SavedSession(StoredByLogin(storage, u, t)).Some? <==> Truthy(u) && t != ""
    ensures Truthy(u) && t != "" ==> SavedSession(StoredByLogin(storage, u, t)) == Some((u, t))
  {
    RoundTrip(u);
    var s := StoredByLogin(storage, u, t);
    assert s[UserKey] == Stringify(u) && s[TokenKey] == t;
  }

  /** A reload after `logout` restores nothing. */
  lemma NothingAfterLogout(storage: map<string, string>)
    ensures SavedSession(StoredByLogout(storage)) == None
  {
    assert UserKey !in StoredByLogout(storage);
  }

  /** `login` then `logout` leaves the storage as `logout` alone would: neither key, the rest untouched. */
  lemma LogoutUndoesLogin(storage: map<string, string>, u: Json, t: string)
    ensures StoredByLogout(StoredByLogin(storage, u, t)) == StoredByLogout(storage)
    ensures UserKey !in StoredByLogout(storage) && TokenKey !in StoredByLogout(storage)
    ensures forall k :: k in storage && k != UserKey && k != TokenKey ==> k in StoredByLogout(storage) && StoredByLogout(storage)[k] == storage[k]
  {
    var a := StoredByLogout(StoredByLogin(storage, u, t));
    var b := StoredByLogout(storage);
    assert forall k :: k in a <==> k in b;
  }

  class Provider {
    /** The `user` state; `JNull` is `null`. */
    var user: Json
    /** The `token` state; `None` is `null`. */
    var token: Option<string>
    /** The browser's session storage for this tab. */
    var storage: map<string, string>

    constructor (storage: map<string, string>)
      ensures user == JNull && token == None && this.storage == storage
    {
      user, token, this.storage := JNull, None, storage;
    }

    /** The mount effect: restore the saved session when there is one; the storage is only read. */
    method RestoreEffect()
      modifies this`user, this`token
      ensures storage == old(storage)
      ensures SavedSession(storage).Some? ==> user == SavedSession(storage).value.0 && token == Some(SavedSession(storage).value.1)
      ensures SavedSession(storage).None? ==> user == old(user) && token == old(token)
    {
      var saved := SavedSession(storage);
      if saved.Some? {
        user, token := saved.value.0, Some(saved.value.1);
      }
    }

    /** `login`: set both states and write both keys. */
    method Login(u: Json, t: string)
      modifies this`user, this`token, this`storage
      ensures user == u && token == Some(t)
      ensures storage == StoredByLogin(old(storage), u, t)
    {
      user, token := u, Some(t);
      storage := storage[UserKey := Stringify(u)];
      storage := storage[TokenKey := t];
    }

    /** `logout`: clear both states and remove both keys. */
    method Logout()
      modifies this`user, this`token, this`storage
      ensures user == JNull && token == None
      ensures storage == StoredByLogout(old(storage))
    {
      user, token := JNull, None;
      storage := storage - {UserKey};
      storage := storage - {TokenKey};
    }
  }
}
