/**
 * The browser state the client touches: localStorage, modelled as a map from key to the
 * stored value, and the current location.
 */
module Browser {
  import opened Records

  /**
   * A localStorage value. The client stores the credential as text and the user as
   * JSON.stringify(user); a serialized user is kept as the record itself.
   */
  datatype Stored = Text(text: string) | UserJson(user: User)

  const AuthKey: string := "auth"
  const UserKey: string := "user"

  /** localStorage.getItem(key) yields a truthy string: present and not empty (a serialized object never is). */
  predicate Truthy(storage: map<string, Stored>, key: string)
  {
    key in storage && (storage[key].UserJson? || storage[key].text != "")
  }

  /** The shape every writer of the two session entries keeps: text under "auth", a user under "user". */
  predicate WellFormed(storage: map<string, Stored>)
  {
    && (AuthKey in storage ==> storage[AuthKey].Text?)
    && (UserKey in storage ==> storage[UserKey].UserJson?)
  }

  /** The storage after localStorage.removeItem('auth') and localStorage.removeItem('user'). */
  function WithoutSession(storage: map<string, Stored>): (r: map<string, Stored>)
    ensures AuthKey !in r && UserKey !in r
    ensures forall k :: k != AuthKey && k != UserKey ==> (k in r <==> k in storage)
    ensures forall k :: k in r ==> r[k] == storage[k]
    ensures WellFormed(storage) ==> WellFormed(r)
  {
    storage - {AuthKey, UserKey}
  }

  /** Removing the session entries a second time changes nothing. */
  lemma WithoutSessionIdempotent(storage: map<string, Stored>)
    ensures WithoutSession(WithoutSession(storage)) == WithoutSession(storage)
  {
  }

  /** The page's window: its localStorage and window.location. */
  class Window {
    var storage: map<string, Stored>
    var location: string

    constructor(storage0: map<string, Stored>, location0: string)
      ensures storage == storage0 && location == location0
    {
      storage := storage0;
      location := location0;
    }
  }
}
