/**
 * The sign-in / sign-up form (src/screens/AuthScreen.tsx): eight fields, the
 * mode toggle, the cascading country → state → city resets, and the guards in
 * front of the identity registry. The guards test emptiness only; nothing is
 * trimmed.
 */
module AuthScreen {
  import opened Wrappers
  import opened Types
  import opened Auth

  datatype AuthMode = Login | Register

  const IncompleteMessage := "Por favor completa todos los campos"

  /** What `handleAuth` ends with: the incomplete-form alert, a failure alert carrying the thrown error, or nothing. */
  datatype AuthAlert = IncompleteForm | Failure(error: AuthError)

  function AlertOf(settled: Settled): Option<AuthAlert> {
    if settled.Done? then None else Some(Failure(settled.error))
  }

  class AuthForm {
    var mode: AuthMode
    var username: string
    var email: string
    var password: string
    var phone: string
    var address: string
    var country: string
    var state: string
    var city: string

    constructor ()
      ensures mode == Login
      ensures username == [] && email == [] && password == [] && phone == [] && address == []
      ensures country == [] && state == [] && city == []
    {
      mode := Login;
      username := [];
      email := [];
      password := [];
      phone := [];
      address := [];
      country := [];
      state := [];
      city := [];
    }

    /** The state picker is enabled only once a country is chosen. */
    predicate StatePickerEnabled() reads this { country != [] }

    /** The city can be typed only once a state is chosen. */
    predicate CityEditable() reads this { state != [] }

    /** The login guard: username and password present. */
    predicate LoginComplete() reads this { username != [] && password != [] }

    /** The register guard: all eight fields present. */
    predicate RegisterComplete() reads this {
      username != [] && email != [] && password != [] && phone != [] && address != []
      && country != [] && state != [] && city != []
    }

    /** Choosing a country clears state and city, so the city is locked again until a state is chosen. */
    method SelectCountry(value: string)
      modifies this`country, this`state, this`city
      ensures country == value && state == [] && city == []
      ensures StatePickerEnabled() <==> value != []
      ensures !CityEditable() && !RegisterComplete()
    {
      country := value;
      state := [];
      city := [];
    }

    /** Choosing a state clears the city. */
    method SelectState(value: string)
      modifies this`state, this`city
      ensures state == value && city == [] && country == old(country)
      ensures CityEditable() <==> value != []
      ensures !RegisterComplete()
    {
      state := value;
      city := [];
    }

    /** The link under the button flips the mode and keeps every field. */
    method ToggleMode()
      modifies this`mode
      ensures mode == (if old(mode) == Login then Register else Login)
    {
      mode := if mode == Login then Register else Login;
    }

    /**
     * `handleAuth`. An incomplete form raises the alert and calls nothing;
     * otherwise `login` or `register` runs with the fields as typed, and a
     * rejection is surfaced as the alert.
     */
    method HandleAuth(registry: AuthRegistry, newId: Id, now: Timestamp, failAt: FailAt)
      returns (alert: Option<AuthAlert>)
      modifies registry
      ensures mode == Login && !LoginComplete() ==> alert == Some(IncompleteForm) && unchanged(registry)
      ensures mode == Register && !RegisterComplete() ==> alert == Some(IncompleteForm) && unchanged(registry)
      ensures mode == Login && LoginComplete() ==>
        && registry.user == (if failAt > 1 then Some(PlaceholderUser(newId, username, now)) else old(registry.user))
        && alert == (if failAt > 1 then None else Some(Failure(StorageFailure)))
      ensures mode == Register && RegisterComplete() ==>
        var taken := IsTaken(old(registry.Credentials()), username, email);
        && alert == (if failAt == 0 then Some(Failure(StorageFailure))
                     else if taken then Some(Failure(DuplicateIdentity))
                     else if failAt > 5 then None
                     else Some(Failure(StorageFailure)))
        && registry.user == (if failAt > 5 && !taken
                             then Some(User(newId, username, email, phone, address, country, state, city, now))
                             else old(registry.user))
    {
      if mode == Login {
        if username == [] || password == [] {
          return Some(IncompleteForm);
        }
        var settled := registry.Login(username, password, newId, now, failAt);
        alert := AlertOf(settled);
      } else {
        if username == [] || email == [] || password == [] || phone == [] || address == []
           || country == [] || state == [] || city == [] {
          return Some(IncompleteForm);
        }
        var settled := registry.Register(username, email, password, phone, address, country, state, city,
                                         newId, now, failAt);
        alert := AlertOf(settled);
      }
    }
  }
}
