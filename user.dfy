/**
 * The session store: the signed-in user's profile, whether the session is
 * authenticated, a loading flag and the last error.
 */
module Users {
  import opened Remote

  datatype Role = ADVERTISER | RADIO_REPRESENTATIVE | ADMIN

  /** A user as the server describes it; the balance is kept in whole units. */
  datatype User = User(id: int, login: string, name: string, surname: string, balance: int, role: Role)

  /** The store's four fields as one value. */
  datatype Session = Session(profile: Option<User>, isAuth: bool, loading: bool, error: Option<ErrorValue>)

  /** The session is authenticated exactly when a profile is present. */
  predicate Consistent(s: Session)
  {
    s.isAuth <==> s.profile.Some?
  }

  /** `profile?.role`. */
  function RoleOf(profile: Option<User>): (r: Option<Role>)
    ensures r.Some? <==> profile.Some?
    ensures r.Some? ==> r.value == profile.value.role
  {
    match profile
    case Some(u) => Some(u.role)
    case None => None
  }

  class UserStore {
    var profile: Option<User>
    var isAuth: bool
    var loading: bool
    var error: Option<ErrorValue>

    function State(): Session
      reads this
    {
      Session(profile, isAuth, loading, error)
    }

    /** The store's initial state: signed out. */
    constructor ()
      ensures profile == None && !isAuth && !loading && error == None
      ensures Consistent(State())
    {
      profile := None;
      isAuth := false;
      loading := false;
      error := None;
    }

    /**
     * `init()`: the session bootstrap, called by the route guard and at
     * start-up. Its body is not in src/stores/user.js, so the model takes
     * it as an arbitrary transition of the store's state.
     */
    method Init(bootstrap: Session -> Session)
      modifies this
      ensures State() == bootstrap(old(State()))
    {
      var next := bootstrap(State());
      profile, isAuth, loading, error := next.profile, next.isAuth, next.loading, next.error;
    }

    /**
     * `doLogin({login, password})`. The reply's body becomes the profile;
     * a success with an empty (null) body leaves `profile` null while
     * `isAuth` is true, the one way to break `Consistent`.
     */
    method DoLogin(login: string, password: string, reply: Outcome<Option<User>>) returns (ok: bool)
      modifies this
      ensures !loading
      ensures ok <==> reply.Ok?
      ensures reply.Ok? ==> profile == reply.value && isAuth && error == None
      ensures reply.Fail? ==> profile == None && !isAuth && error == Some(Reported(reply.failure))
      ensures (reply.Fail? || reply.value.Some?) ==> Consistent(State())
      ensures reply == Ok(None) ==> !Consistent(State())
    {
      loading := true;
      error := None;
      match reply {
        case Ok(body) =>
          profile := body;
          isAuth := true;
          ok := true;
        case Fail(f) =>
          error := Some(Reported(f));
          profile := None;
          isAuth := false;
          ok := false;
      }
      loading := false;
    }

    /** `doRegister(userDto)`: reports success and never touches the session. */
    method DoRegister(userDto: User, reply: Outcome<()>) returns (ok: bool)
      modifies this
      ensures !loading
      ensures ok <==> reply.Ok?
      ensures profile == old(profile) && isAuth == old(isAuth)
      ensures reply.Ok? ==> error == None
      ensures reply.Fail? ==> error == Some(Reported(reply.failure))
    {
      loading := true;
      error := None;
      match reply {
        case Ok(_) =>
          ok := true;
        case Fail(_) =>
          error := Some(Reported(reply.failure));
          ok := false;
      }
      loading := false;
    }

    /**
     * `doLogout()`: the server call's failure is swallowed and the session
     * is torn down in every case. `error` is neither cleared nor set.
     */
    method DoLogout(reply: Outcome<()>)
      modifies this
      ensures profile == None && !isAuth && !loading
      ensures error == old(error)
      ensures Consistent(State())
    {
      loading := true;
      profile := None;
      isAuth := false;
      loading := false;
    }
  }
}
