/**
 * The identity registry (src/context/AuthContext.tsx): the session user and
 * the four storage keys it owns — `userToken`, `user` (the session snapshot),
 * `users` (credentials) and `allUsers` (profiles). Each storage call may
 * throw; the operations run their calls in the source's order, so a failure
 * part-way leaves the earlier writes in place and rejects the promise.
 */
module Auth {
  import opened Wrappers
  import opened Types

  datatype AuthError = DuplicateIdentity | StorageFailure

  /** How an identity operation's promise settles. */
  datatype Settled = Done | Failed(error: AuthError)

  const DuplicateIdentityMessage := "El usuario o email ya existe"

  /** The message the rejection carries, when the registry itself chose it. */
  function Message(e: AuthError): Option<string> {
    match e
    case DuplicateIdentity => Some(DuplicateIdentityMessage)
    case StorageFailure => None
  }

  /** `users.some(u => u.username === username || u.email === email)`: exact, case-sensitive. */
  predicate IsTaken(credentials: seq<Credential>, username: string, email: string) {
    exists i :: 0 <= i < |credentials| && (credentials[i].username == username || credentials[i].email == email)
  }

  /** No two credentials share a username, and no two share an email. */
  predicate IdentitiesUnique(credentials: seq<Credential>) {
    forall i, j :: 0 <= i < j < |credentials| ==>
      credentials[i].username != credentials[j].username && credentials[i].email != credentials[j].email
  }

  /** A registration that passed the duplicate check keeps usernames and emails unique. */
  lemma RegistrationKeepsIdentitiesUnique(credentials: seq<Credential>, c: Credential)
    requires IdentitiesUnique(credentials) && !IsTaken(credentials, c.username, c.email)
    ensures IdentitiesUnique(credentials + [c])
  {
  }

  const LoginEmailDomain := "@minimarket.com"

  /** The profile `login` invents in its development mode, without looking at any credential. */
  function PlaceholderUser(id: Id, username: string, now: Timestamp): User {
    User(id, username, username + LoginEmailDomain, "1234567890", "Dirección por defecto", "México",
         "Estado por defecto", "Ciudad por defecto", now)
  }

  /** `Partial<User>`: `None` for a key the update object does not carry. */
  datatype UserPatch = UserPatch(
    id: Option<Id>,
    username: Option<string>,
    email: Option<string>,
    phone: Option<string>,
    address: Option<string>,
    country: Option<string>,
    state: Option<string>,
    city: Option<string>,
    createdAt: Option<Timestamp>)

  /** `{ ...user, ...updates }`: every field the patch carries wins. */
  function Merge(u: User, patch: UserPatch): User {
    User(patch.id.GetOr(u.id), patch.username.GetOr(u.username), patch.email.GetOr(u.email),
         patch.phone.GetOr(u.phone), patch.address.GetOr(u.address), patch.country.GetOr(u.country),
         patch.state.GetOr(u.state), patch.city.GetOr(u.city), patch.createdAt.GetOr(u.createdAt))
  }

  /** A merged field: the patch's value when the patch carries one, the base value otherwise. */
  predicate Overlays<T(==)>(field: Option<T>, merged: T, base: T) {
    (field.Some? ==> merged == field.value) && (field.None? ==> merged == base)
  }

  /** Every field the patch carries wins and every other field is kept. */
  lemma MergeOverlays(u: User, patch: UserPatch)
    ensures var m := Merge(u, patch);
      && Overlays(patch.id, m.id, u.id)
      && Overlays(patch.username, m.username, u.username)
      && Overlays(patch.email, m.email, u.email)
      && Overlays(patch.phone, m.phone, u.phone)
      && Overlays(patch.address, m.address, u.address)
      && Overlays(patch.country, m.country, u.country)
      && Overlays(patch.state, m.state, u.state)
      && Overlays(patch.city, m.city, u.city)
      && Overlays(patch.createdAt, m.createdAt, u.createdAt)
  {
  }

  /** An empty patch changes nothing, and merging the same patch twice is merging it once. */
  lemma MergeLaws(u: User, patch: UserPatch)
    ensures Merge(u, UserPatch(None, None, None, None, None, None, None, None, None)) == u
    ensures Merge(Merge(u, patch), patch) == Merge(u, patch)
  {
  }

  class AuthRegistry {
    /** The session user. */
    var user: Option<User>
    var isLoading: bool
    /** The `userToken` key. */
    var userToken: Option<string>
    /** The `user` key: the session snapshot. */
    var storedUser: Option<User>
    /** The `users` key: credentials. */
    var users: Option<seq<Credential>>
    /** The `allUsers` key: profiles. */
    var allUsers: Option<seq<User>>

    constructor (userToken: Option<string>, storedUser: Option<User>, users: Option<seq<Credential>>,
                 allUsers: Option<seq<User>>)
      ensures user == None && isLoading
      ensures this.userToken == userToken && this.storedUser == storedUser
      ensures this.users == users && this.allUsers == allUsers
    {
      user := None;
      isLoading := true;
      this.userToken := userToken;
      this.storedUser := storedUser;
      this.users := users;
      this.allUsers := allUsers;
    }

    function Credentials(): seq<Credential> reads this { users.GetOr([]) }

    function Profiles(): seq<User> reads this { allUsers.GetOr([]) }

    /** `isSignedIn: !!user`. */
    function IsSignedIn(): bool
      reads this
    {
      user.Some?
    }

    /**
     * Two reads (calls 0 and 1). The session is restored only when a non-empty
     * token and a session snapshot are both stored; a failed read is only logged.
     */
    method Bootstrap(failAt: FailAt)
      modifies this`user, this`isLoading
      ensures !isLoading
      ensures failAt >= 2 && userToken.Some? && userToken.value != "" && storedUser.Some? ==> user == storedUser
      ensures !(failAt >= 2 && userToken.Some? && userToken.value != "" && storedUser.Some?) ==> user == old(user)
    {
      if failAt >= 2 && userToken.Some? && userToken.value != "" && storedUser.Some? {
        user := storedUser;
      }
      isLoading := false;
    }

    /**
     * Calls: read `users` (0), read `allUsers` (1), write `allUsers` (2),
     * write `users` (3), write `userToken` (4), write `user` (5); then the
     * session is set.
     */
    method Register(username: string, email: string, password: string, phone: string, address: string,
                    country: string, state: string, city: string, newId: Id, now: Timestamp, failAt: FailAt)
      returns (settled: Settled)
      modifies this
      ensures !isLoading
      ensures settled == (if failAt == 0 then Failed(StorageFailure)
                          else if IsTaken(old(Credentials()), username, email) then Failed(DuplicateIdentity)
                          else if failAt > 5 then Done
                          else Failed(StorageFailure))
      ensures failAt <= 2 || IsTaken(old(Credentials()), username, email) ==>
        users == old(users) && allUsers == old(allUsers) && userToken == old(userToken)
        && storedUser == old(storedUser) && user == old(user)
      ensures failAt > 2 && !IsTaken(old(Credentials()), username, email) ==>
        var newUser := User(newId, username, email, phone, address, country, state, city, now);
        && allUsers == Some(old(Profiles()) + [newUser])
        && users == (if failAt > 3 then Some(old(Credentials()) + [Credential(newId, username, email, password)]) else old(users))
        && userToken == (if failAt > 4 then Some(newId) else old(userToken))
        && storedUser == (if failAt > 5 then Some(newUser) else old(storedUser))
        && user == (if failAt > 5 then Some(newUser) else old(user))
    {
      isLoading := true;
      if failAt == 0 {
        isLoading := false;
        return Failed(StorageFailure);
      }
      var credentials := Credentials();
      if IsTaken(credentials, username, email) {
        isLoading := false;
        return Failed(DuplicateIdentity);
      }
      var newUser := User(newId, username, email, phone, address, country, state, city, now);
      if failAt == 1 {
        isLoading := false;
        return Failed(StorageFailure);
      }
      var profiles := Profiles();
      profiles := profiles + [newUser];
      if failAt == 2 {
        isLoading := false;
        return Failed(StorageFailure);
      }
      allUsers := Some(profiles);
      credentials := credentials + [Credential(newUser.id, username, email, password)];
      if failAt == 3 {
        isLoading := false;
        return Failed(StorageFailure);
      }
      users := Some(credentials);
      if failAt == 4 {
        isLoading := false;
        return Failed(StorageFailure);
      }
      userToken := Some(newUser.id);
      if failAt == 5 {
        isLoading := false;
        return Failed(StorageFailure);
      }
      storedUser := Some(newUser);
      user := Some(newUser);
      isLoading := false;
      settled := Done;
    }

    /**
     * The development-mode login: no credential is read, any pair is accepted.
     * Calls: write `userToken` (0), write `user` (1); then the session is set.
     */
    method Login(username: string, password: string, newId: Id, now: Timestamp, failAt: FailAt)
      returns (settled: Settled)
      modifies this
      ensures !isLoading
      ensures users == old(users) && allUsers == old(allUsers)
      ensures userToken == (if failAt > 0 then Some(newId) else old(userToken))
      ensures storedUser == (if failAt > 1 then Some(PlaceholderUser(newId, username, now)) else old(storedUser))
      ensures user == (if failAt > 1 then Some(PlaceholderUser(newId, username, now)) else old(user))
      ensures settled == (if failAt > 1 then Done else Failed(StorageFailure))
    {
      isLoading := true;
      var userData := PlaceholderUser(newId, username, now);
      if failAt == 0 {
        isLoading := false;
        return Failed(StorageFailure);
      }
      userToken := Some(userData.id);
      if failAt == 1 {
        isLoading := false;
        return Failed(StorageFailure);
      }
      storedUser := Some(userData);
      user := Some(userData);
      isLoading := false;
      settled := Done;
    }

    /**
     * No-op without a session. Otherwise the session becomes the merge at once,
     * and then the `user` key is written (call 0); `allUsers` is never touched.
     */
    method UpdateProfile(updates: UserPatch, failAt: FailAt) returns (settled: Settled)
      modifies this`user, this`storedUser
      ensures old(user).None? ==> user == old(user) && storedUser == old(storedUser) && settled == Done
      ensures old(user).Some? ==> user == Some(Merge(old(user).value, updates))
      ensures old(user).Some? ==>
        storedUser == (if failAt > 0 then user else old(storedUser))
        && settled == (if failAt > 0 then Done else Failed(StorageFailure))
    {
      if user.None? {
        return Done;
      }
      var updatedUser := Merge(user.value, updates);
      user := Some(updatedUser);
      if failAt == 0 {
        return Failed(StorageFailure);
      }
      storedUser := Some(updatedUser);
      settled := Done;
    }

    /**
     * Calls: remove `userToken` (0), remove `user` (1); then the session is
     * cleared. Credentials and profiles are kept.
     */
    method Logout(failAt: FailAt) returns (settled: Settled)
      modifies this`user, this`userToken, this`storedUser, this`isLoading
      ensures !isLoading
      ensures userToken == (if failAt > 0 then None else old(userToken))
      ensures storedUser == (if failAt > 1 then None else old(storedUser))
      ensures user == (if failAt > 1 then None else old(user))
      ensures failAt > 1 ==> !IsSignedIn()
      ensures settled == (if failAt > 1 then Done else Failed(StorageFailure))
    {
      isLoading := true;
      if failAt == 0 {
        isLoading := false;
        return Failed(StorageFailure);
      }
      userToken := None;
      if failAt == 1 {
        isLoading := false;
        return Failed(StorageFailure);
      }
      storedUser := None;
      user := None;
      isLoading := false;
      settled := Done;
    }
  }
}
