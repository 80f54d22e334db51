/** The session store (`AuthProvider`): the token kept in `localStorage` and the
    in-memory flag `isLoggedIn` derived from it. */
module Auth {
  import opened Js
  import opened Browser

  class AuthProvider {
    /** The browser storage the provider reads and writes (shared with other views). */
    const storage: Storage
    /** The React state `isLoggedIn` handed to consumers of the context. */
    var isLoggedIn: bool

    /** The flag agrees with the truthiness of the stored token. */
    ghost predicate Valid()
      reads this, storage
    {
      isLoggedIn == Truthy(storage.GetItem(TokenKey))
    }

    /** Mounting the provider: the flag starts as `!!localStorage.getItem("token")`. */
    constructor (storage: Storage)
      ensures this.storage == storage
      ensures isLoggedIn == Truthy(storage.GetItem(TokenKey))
      ensures Valid()
    {
      this.storage := storage;
      isLoggedIn := Truthy(storage.GetItem(TokenKey));
    }

    /** `login(token)`: store the token, then raise the flag. The invariant survives
        only for a non-empty token: `login("")` raises the flag although `!!""` is false. */
    method Login(token: string)
      modifies this, storage
      ensures storage.items == old(storage.items)[TokenKey := token]
      ensures isLoggedIn
      ensures Valid() <==> token != ""
    {
      storage.SetItem(TokenKey, token);
      isLoggedIn := true;
    }

    /** `logout()`: remove the token, then lower the flag. */
    method Logout()
      modifies this, storage
      ensures storage.items == old(storage.items) - {TokenKey}
      ensures !isLoggedIn
      ensures Valid()
    {
      storage.RemoveItem(TokenKey);
      isLoggedIn := false;
    }

    /** The `storage` event handler: re-derive the flag from what is stored now,
        whoever wrote it; storage itself is left alone. */
    method HandleStorageChange()
      modifies this
      ensures isLoggedIn == Truthy(storage.GetItem(TokenKey))
      ensures unchanged(storage)
      ensures Valid()
    {
      isLoggedIn := Truthy(storage.GetItem(TokenKey));
    }
  }

  /** Logging out twice leaves the same state as logging out once. */
  method LogoutTwice(auth: AuthProvider)
    modifies auth, auth.storage
    ensures auth.storage.items == old(auth.storage.items) - {TokenKey}
    ensures !auth.isLoggedIn && auth.Valid()
  {
    auth.Logout();
    auth.Logout();
    assert auth.storage.items == old(auth.storage.items) - {TokenKey} - {TokenKey};
  }

  /** Another tab removes the token: the flag is stale until the storage event
      handler runs, and afterwards agrees with storage again. */
  method OtherTabLogsOut(auth: AuthProvider, otherTab: Storage)
    requires auth.Valid() && auth.isLoggedIn
    requires otherTab == auth.storage
    modifies auth, auth.storage
    ensures !auth.isLoggedIn && auth.Valid()
    ensures TokenKey !in auth.storage.items
  {
    otherTab.RemoveItem(TokenKey);
    assert auth.isLoggedIn && !auth.Valid();
    auth.HandleStorageChange();
  }
}
