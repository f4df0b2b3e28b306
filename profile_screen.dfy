/**
 * The profile editor (src/screens/ProfileScreen.tsx): a draft of the seven
 * editable fields, the cascading country → state → city resets, cancel, and
 * save through the registry's `updateProfile`.
 */
module ProfileScreen {
  import opened Wrappers
  import opened Types
  import opened Auth

  /** `editedUser`. */
  datatype Draft = Draft(username: string, email: string, phone: string, address: string, country: string,
                         state: string, city: string)

  /**
   * `user?.field || ''` for the seven fields: without a session every field is
   * empty; with one, saving the untouched draft leaves the session user as it was.
   */
  function InitialDraft(session: Option<User>): (d: Draft)
    ensures session.None? ==> d == Draft([], [], [], [], [], [], [])
    ensures session.Some? ==> Merge(session.value, PatchOf(d)) == session.value
  {
    match session
    case None => Draft([], [], [], [], [], [], [])
    case Some(u) => Draft(u.username, u.email, u.phone, u.address, u.country, u.state, u.city)
  }

  /** The object `handleSave` passes: every draft field, id and creation time excluded. */
  function PatchOf(d: Draft): UserPatch {
    UserPatch(None, Some(d.username), Some(d.email), Some(d.phone), Some(d.address), Some(d.country),
              Some(d.state), Some(d.city), None)
  }

  /** Saving the draft takes every edited field into the session and keeps id and creation time. */
  lemma SaveAppliesDraft(u: User, d: Draft)
    ensures var m := Merge(u, PatchOf(d));
      && InitialDraft(Some(m)) == d
      && m.id == u.id && m.createdAt == u.createdAt
  {
  }

  class ProfileEditor {
    var isEditing: bool
    var editedUser: Draft

    constructor (session: Option<User>)
      ensures !isEditing && editedUser == InitialDraft(session)
    {
      isEditing := false;
      editedUser := InitialDraft(session);
    }

    /** The state picker is enabled only with a country. */
    predicate StatePickerEnabled() reads this { editedUser.country != [] }

    /** The city can be typed only with a state. */
    predicate CityEditable() reads this { editedUser.state != [] }

    method StartEditing()
      modifies this`isEditing
      ensures isEditing
    {
      isEditing := true;
    }

    /** A new country clears state and city. */
    method SelectCountry(value: string)
      modifies this`editedUser
      ensures editedUser == old(editedUser).(country := value, state := [], city := [])
      ensures !CityEditable()
    {
      editedUser := editedUser.(country := value, state := [], city := []);
    }

    /** A new state clears the city. */
    method SelectState(value: string)
      modifies this`editedUser
      ensures editedUser == old(editedUser).(state := value, city := [])
      ensures CityEditable() <==> value != []
    {
      editedUser := editedUser.(state := value, city := []);
    }

    /** `handleCancel`: the draft is rebuilt from the current session user and editing ends. */
    method Cancel(session: Option<User>)
      modifies this
      ensures editedUser == InitialDraft(session) && !isEditing
    {
      editedUser := InitialDraft(session);
      isEditing := false;
    }

    /** `handleSave`: the whole draft goes to `updateProfile`; editing ends only if that resolves. */
    method Save(registry: AuthRegistry, failAt: FailAt) returns (settled: Settled)
      modifies this`isEditing, registry`user, registry`storedUser
      ensures settled == Done ==> !isEditing
      ensures settled != Done ==> isEditing == old(isEditing)
      ensures old(registry.user).None? ==> settled == Done && registry.user == old(registry.user)
      ensures old(registry.user).Some? ==>
        && registry.user == Some(Merge(old(registry.user).value, PatchOf(editedUser)))
        && InitialDraft(registry.user) == editedUser
        && settled == (if failAt > 0 then Done else Failed(StorageFailure))
    {
      if registry.user.Some? {
        SaveAppliesDraft(registry.user.value, editedUser);
      }
      settled := registry.UpdateProfile(PatchOf(editedUser), failAt);
      if settled == Done {
        isEditing := false;
      }
    }
  }
}
