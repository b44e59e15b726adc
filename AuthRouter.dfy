/**
 * The authentication endpoints: registration's pre-check and error
 * mapping, login by email or username, and logout and refresh against
 * the refresh-token blacklist.  Password checking is the authentication
 * backend's business and an input here (`authenticate`); so is whether a
 * token's signature and expiry are good (`wellFormed`).  Token issuing is
 * not modelled.
 */
module AuthRouter {
  import opened Wrappers
  import opened Text
  import opened UserModels
  import opened ApiErrors
  import UserSchemas
  import UserServices

  const PASSWORDS_DIFFER: string := "Passwords do not match"
  const PROFILE_FAILED: string := "Unable to create user profile. Please try again."
  const INVALID_CREDENTIALS: string := "Invalid credentials"
  const ACCOUNT_DISABLED: string := "User account is disabled"
  const BAD_REFRESH: string := "Invalid or expired refresh token"
  const LOGGED_OUT: string := "Successfully logged out"

  /** The status-400 response for each error the registration service raises. */
  function RegistrationErrorResponse(e: UserServices.RegistrationError): (r: HttpError)
    ensures r.status == 400
    ensures e.CreationFailed? ==> r.message == PROFILE_FAILED
    ensures !e.CreationFailed? ==> r.message == UserServices.ErrorText(e)
  {
    if e.CreationFailed? then HttpError(400, PROFILE_FAILED) else HttpError(400, UserServices.ErrorText(e))
  }

  /** The service's input built from the validated request body. */
  function RegistrationDataOf(payload: UserSchemas.RegisterInput): UserServices.RegistrationData {
    UserServices.RegistrationData(payload.email, payload.username, payload.password, payload.userType, payload.companyName)
  }

  /** `register`: mismatching passwords are refused before the service runs; each service error is a 400. */
  function RegisterOutcome(users: seq<User>, profiles: seq<Profile>, next: UserId,
                           payload: UserSchemas.RegisterInput, passwordProblems: seq<string>)
    : (r: Result<User, HttpError>)
    ensures payload.password != payload.passwordConfirm ==> r == Err(HttpError(400, PASSWORDS_DIFFER))
    ensures r.Err? ==> r.error.status == 400
    ensures r.Ok? ==> payload.password == payload.passwordConfirm
    ensures var out := UserServices.RegistrationOutcome(users, profiles, next, RegistrationDataOf(payload), passwordProblems);
      r.Ok? ==> out.Ok? && out.value.user == r.value
    ensures var out := UserServices.RegistrationOutcome(users, profiles, next, RegistrationDataOf(payload), passwordProblems);
      payload.password == payload.passwordConfirm && out.Err? ==> r == Err(RegistrationErrorResponse(out.error))
  {
    if payload.password != payload.passwordConfirm then Err(HttpError(400, PASSWORDS_DIFFER))
    else
      match UserServices.RegistrationOutcome(users, profiles, next, RegistrationDataOf(payload), passwordProblems)
      case Err(e) => Err(RegistrationErrorResponse(e))
      case Ok(reg) => Ok(reg.user)
  }

  /** `register` against the store: a refused registration writes nothing. */
  method Register(store: UserStore, payload: UserSchemas.RegisterInput, passwordProblems: seq<string>)
    returns (r: Result<User, HttpError>)
    requires store.Valid()
    modifies store
    ensures store.Valid()
    ensures r == RegisterOutcome(old(store.users), old(store.profiles), old(store.nextId), payload, passwordProblems)
    ensures r.Err? ==>
      store.users == old(store.users) && store.profiles == old(store.profiles) && store.nextId == old(store.nextId)
    ensures r.Ok? ==>
      var reg := UserServices.RegistrationOutcome(old(store.users), old(store.profiles), old(store.nextId),
                                                  RegistrationDataOf(payload), passwordProblems).value;
      reg.user == r.value &&
      store.users == old(store.users) + [r.value] &&
      store.profiles == old(store.profiles) + [reg.profile] &&
      store.nextId == old(store.nextId) + 1
  {
    if payload.password != payload.passwordConfirm {
      return Err(HttpError(400, PASSWORDS_DIFFER));
    }
    var created := UserServices.CreateUserWithProfile(store, RegistrationDataOf(payload), passwordProblems);
    if created.Err? {
      return Err(RegistrationErrorResponse(created.error));
    }
    r := Ok(created.value.user);
  }

  /** `User.objects.get(email=...)`: the one user with that email. */
  function UserByEmail(users: seq<User>, email: string): (r: Option<User>)
    ensures r.Some? ==> r.value in users && r.value.email == email
    ensures r.None? ==> forall u :: u in users ==> u.email != email
  {
    if users == [] then None
    else if users[0].email == email then Some(users[0])
    else UserByEmail(users[1..], email)
  }

  /** `User.objects.get(username=...)`. */
  function UserByUsername(users: seq<User>, username: string): (r: Option<User>)
    ensures r.Some? ==> r.value in users && r.value.username == username
    ensures r.None? ==> forall u :: u in users ==> u.username != username
  {
    if users == [] then None
    else if users[0].username == username then Some(users[0])
    else UserByUsername(users[1..], username)
  }

  /** The lookup then `authenticate(email=user_obj.email, password=...)`; nothing when no user is found. */
  function AuthenticateFound(found: Option<User>, password: string, authenticate: (string, string) -> Option<User>)
    : Option<User>
  {
    if found.Some? then authenticate(found.value.email, password) else None
  }

  /**
   * The user `login` settles on: the email lookup's (lowercased) when the
   * identifier contains '@' and it authenticates, else the username lookup's.
   */
  function ResolvedUser(users: seq<User>, id: string, password: string,
                        authenticate: (string, string) -> Option<User>): Option<User>
  {
    var byEmail := if '@' in id then AuthenticateFound(UserByEmail(users, Lower(id)), password, authenticate) else None;
    if byEmail.Some? then byEmail else AuthenticateFound(UserByUsername(users, id), password, authenticate)
  }

  /**
   * `login` after trimming: the identifier is tried as an email
   * (lowercased) when it contains '@', then as a username when that gave
   * no user.  No user is "Invalid credentials"; an inactive one is
   * "User account is disabled"; both are 401.
   */
  function LoginResolve(users: seq<User>, id: string, password: string,
                        authenticate: (string, string) -> Option<User>)
    : (r: Result<User, HttpError>)
    ensures r.Ok? ==> r.value.isActive
    ensures r.Err? ==> r.error.status == 401
    ensures var byEmail := if '@' in id then AuthenticateFound(UserByEmail(users, Lower(id)), password, authenticate) else None;
      (byEmail.Some? && byEmail.value.isActive ==> r == Ok(byEmail.value)) &&
      (byEmail.None? ==> r.Ok? ==> Some(r.value) == AuthenticateFound(UserByUsername(users, id), password, authenticate))
    ensures var user := ResolvedUser(users, id, password, authenticate);
      (r == Err(HttpError(401, ACCOUNT_DISABLED)) <==> user.Some? && !user.value.isActive) &&
      (r == Err(HttpError(401, INVALID_CREDENTIALS)) <==> user.None?) &&
      (r.Ok? <==> user.Some? && user.value.isActive)
  {
    var user := ResolvedUser(users, id, password, authenticate);
    if user.None? then Err(HttpError(401, INVALID_CREDENTIALS))
    else if !user.value.isActive then Err(HttpError(401, ACCOUNT_DISABLED))
    else Ok(user.value)
  }

  /** `login`: the identifier is trimmed first. */
  function LoginOutcome(users: seq<User>, identifier: string, password: string,
                        authenticate: (string, string) -> Option<User>): Result<User, HttpError>
  {
    LoginResolve(users, Strip(identifier), password, authenticate)
  }

  /** `login`, with its `user` variable reassigned across the two lookups. */
  method Login(users: seq<User>, identifier: string, password: string, authenticate: (string, string) -> Option<User>)
    returns (r: Result<User, HttpError>)
    ensures r == LoginOutcome(users, identifier, password, authenticate)
  {
    var id := Strip(identifier);
    var user: Option<User> := None;
    if '@' in id {
      var found := UserByEmail(users, Lower(id));
      if found.Some? {
        user := authenticate(found.value.email, password);
      }
    }
    if user.None? {
      var found := UserByUsername(users, id);
      if found.Some? {
        user := authenticate(found.value.email, password);
      }
    }
    if user.None? {
      return Err(HttpError(401, INVALID_CREDENTIALS));
    }
    if !user.value.isActive {
      return Err(HttpError(401, ACCOUNT_DISABLED));
    }
    r := Ok(user.value);
  }

  /** Whitespace around the identifier never matters. */
  lemma LoginIgnoresSurroundingSpace(users: seq<User>, identifier: string, password: string,
                                     authenticate: (string, string) -> Option<User>)
    ensures LoginOutcome(users, Strip(identifier), password, authenticate) ==
            LoginOutcome(users, identifier, password, authenticate)
  {
    StripIdempotent(identifier);
  }

  /**
   * With unique emails and usernames: an identifier with '@' logs in the
   * account whose email is its lowercase form; failing that, or without
   * '@', the account whose username it is.
   */
  lemma LoginFindsTheAccount(users: seq<User>, next: UserId, id: string, password: string,
                             authenticate: (string, string) -> Option<User>, u: User)
    requires UsersValid(users, next)
    requires u in users
    requires ('@' in id && u.email == Lower(id)) ||
             (u.username == id && ('@' !in id || UserByEmail(users, Lower(id)).None?))
    requires authenticate(u.email, password).Some? && authenticate(u.email, password).value.isActive
    ensures LoginResolve(users, id, password, authenticate) == Ok(authenticate(u.email, password).value)
  {
    if '@' in id && u.email == Lower(id) {
      var f := UserByEmail(users, Lower(id)).value;
      var i :| 0 <= i < |users| && users[i] == f;
      var j :| 0 <= j < |users| && users[j] == u;
      assert i == j;
    } else {
      var f := UserByUsername(users, id).value;
      var i :| 0 <= i < |users| && users[i] == f;
      var j :| 0 <= j < |users| && users[j] == u;
      assert i == j;
    }
  }

  /** The refresh tokens that `logout` has blacklisted. */
  class TokenBlacklist {
    var revoked: set<string>

    constructor ()
      ensures revoked == {}
    {
      revoked := {};
    }

    /** `RefreshToken(text)` succeeds: a good signature and expiry, and not blacklisted. */
    predicate Accepts(token: string, wellFormed: string -> bool)
      reads this
    {
      wellFormed(token) && token !in revoked
    }

    /** `logout`: blacklist the token, or 400 when it is not accepted. */
    method Logout(token: string, wellFormed: string -> bool) returns (r: Result<string, HttpError>)
      modifies this
      ensures old(Accepts(token, wellFormed)) ==> r == Ok(LOGGED_OUT) && revoked == old(revoked) + {token}
      ensures !old(Accepts(token, wellFormed)) ==> r == Err(HttpError(400, BAD_REFRESH)) && revoked == old(revoked)
    {
      if !wellFormed(token) || token in revoked {
        return Err(HttpError(400, BAD_REFRESH));
      }
      revoked := revoked + {token};
      r := Ok(LOGGED_OUT);
    }

    /** `refresh_token`: a new access token, or 401 when the refresh token is not accepted. */
    method Refresh(token: string, wellFormed: string -> bool, access: string -> string) returns (r: Result<string, HttpError>)
      ensures Accepts(token, wellFormed) ==> r == Ok(access(token))
      ensures !Accepts(token, wellFormed) ==> r == Err(HttpError(401, BAD_REFRESH))
    {
      if !wellFormed(token) || token in revoked {
        return Err(HttpError(401, BAD_REFRESH));
      }
      r := Ok(access(token));
    }
  }

  /** After a logout, the same refresh token neither refreshes nor logs out again. */
  method LogoutRevokes(blacklist: TokenBlacklist, token: string, wellFormed: string -> bool, access: string -> string)
    returns (first: Result<string, HttpError>, refresh: Result<string, HttpError>, again: Result<string, HttpError>)
    modifies blacklist
    ensures first.Ok? <==> old(blacklist.Accepts(token, wellFormed))
    ensures refresh == Err(HttpError(401, BAD_REFRESH))
    ensures again == Err(HttpError(400, BAD_REFRESH))
  {
    first := blacklist.Logout(token, wellFormed);
    refresh := blacklist.Refresh(token, wellFormed, access);
    again := blacklist.Logout(token, wellFormed);
  }
}
