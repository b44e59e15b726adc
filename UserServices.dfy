/**
 * The registration service: the pre-checks, idempotent profile creation,
 * and user-plus-profile creation as one transaction.  Django's password
 * validators are an input: the list of messages they produce for the
 * password.  A database failure other than a uniqueness clash is not
 * modelled.
 */
module UserServices {
  import opened Wrappers
  import opened Text
  import opened UserModels

  const EMAIL_EXISTS: string := "A user with this email already exists"
  const USERNAME_EXISTS: string := "A user with this username already exists"

  datatype RegistrationData = RegistrationData(
    email: string, username: string, password: string, userType: string, companyName: Option<string>)

  /** Why `create_profile_for_user` or the user creation inside the transaction failed. */
  datatype Cause = InvalidUserType(userType: string) | UserFailure(error: UserError)

  datatype RegistrationError =
    | PasswordInvalid(messages: seq<string>)
    | EmailExists
    | UsernameExists
    /** `ProfileCreationError("User creation failed: ...")`, raised after the rollback. */
    | CreationFailed(cause: Cause)

  function CauseText(c: Cause): string {
    match c
    case InvalidUserType(t) => "Invalid user_type: " + t
    case UserFailure(ValueError(m)) => m
    case UserFailure(IntegrityError) => "integrity error"
  }

  /** The text of each error, as its exception's `str`. */
  function ErrorText(e: RegistrationError): (r: string)
    ensures e.EmailExists? ==> r == EMAIL_EXISTS
    ensures e.UsernameExists? ==> r == USERNAME_EXISTS
    ensures e.PasswordInvalid? ==> r == Join(e.messages, "; ")
    ensures e.CreationFailed? ==> StartsWith(r, "User creation failed: ")
  {
    match e
    case PasswordInvalid(ms) => Join(ms, "; ")
    case EmailExists => EMAIL_EXISTS
    case UsernameExists => USERNAME_EXISTS
    case CreationFailed(c) => "User creation failed: " + CauseText(c)
  }

  /**
   * `validate_user_registration`: the password first, then the lowercased
   * email, then the username; the first failure is the one raised.
   */
  function ValidateRegistration(users: seq<User>, data: RegistrationData, passwordProblems: seq<string>)
    : (r: Option<RegistrationError>)
    ensures r.None? <==>
      passwordProblems == [] && !EmailTaken(users, Lower(data.email)) && !UsernameTaken(users, data.username)
    ensures passwordProblems != [] ==> r == Some(PasswordInvalid(passwordProblems))
    ensures passwordProblems == [] && EmailTaken(users, Lower(data.email)) ==> r == Some(EmailExists)
    ensures passwordProblems == [] && !EmailTaken(users, Lower(data.email)) && UsernameTaken(users, data.username) ==>
      r == Some(UsernameExists)
  {
    if passwordProblems != [] then Some(PasswordInvalid(passwordProblems))
    else if EmailTaken(users, Lower(data.email)) then Some(EmailExists)
    else if UsernameTaken(users, data.username) then Some(UsernameExists)
    else None
  }

  /** `company_name or user.username`: an absent or empty name falls back to the username. */
  function EffectiveCompanyName(companyName: Option<string>, username: string): (r: string)
    ensures companyName.Some? && companyName.value != [] ==> r == companyName.value
    ensures companyName.None? || companyName.value == [] ==> r == username
  {
    if companyName.Some? && companyName.value != [] then companyName.value else username
  }

  /** The profile kind a user type selects; none for any other text. */
  function KindOf(userType: string): (r: Option<ProfileKind>)
    ensures r == Some(SupplierProfile) <==> userType == SUPPLIER
    ensures r == Some(BuyerProfile) <==> userType == BUYER
  {
    if userType == SUPPLIER then Some(SupplierProfile)
    else if userType == BUYER then Some(BuyerProfile)
    else None
  }

  function NewProfile(kind: ProfileKind, user: UserId, companyName: string): Profile {
    Profile(kind, user, companyName, None, None, None, None, None, None, None)
  }

  /**
   * `create_profile_for_user` on a profile table: `get_or_create` of the
   * profile of the user type's kind, or `ValueError` for any other type.
   * The result is the profile and the table afterwards.
   */
  function CreateProfileOutcome(profiles: seq<Profile>, user: User, userType: string, companyName: Option<string>)
    : (r: Result<(Profile, seq<Profile>), Cause>)
    ensures KindOf(userType).None? <==> r.Err?
    ensures r.Err? ==> r.error == InvalidUserType(userType)
    ensures r.Ok? ==> r.value.0.user == user.id && r.value.0.kind == KindOf(userType).value
    ensures r.Ok? && FindProfile(profiles, user.id, KindOf(userType).value).Some? ==>
      r.value == (FindProfile(profiles, user.id, KindOf(userType).value).value, profiles)
    ensures r.Ok? && FindProfile(profiles, user.id, KindOf(userType).value).None? ==>
      r.value.1 == profiles + [r.value.0] &&
      r.value.0.companyName == EffectiveCompanyName(companyName, user.username)
  {
    match KindOf(userType)
    case None => Err(InvalidUserType(userType))
    case Some(kind) =>
      match FindProfile(profiles, user.id, kind)
      case Some(p) => Ok((p, profiles))
      case None =>
        var p := NewProfile(kind, user.id, EffectiveCompanyName(companyName, user.username));
        Ok((p, profiles + [p]))
  }

  /**
   * Profile creation is idempotent: a second call returns the profile the
   * first made, with its original company name, and adds nothing.
   */
  lemma CreateProfileIdempotent(profiles: seq<Profile>, user: User, userType: string, c1: Option<string>, c2: Option<string>)
    requires CreateProfileOutcome(profiles, user, userType, c1).Ok?
    ensures var (p, after) := CreateProfileOutcome(profiles, user, userType, c1).value;
      CreateProfileOutcome(after, user, userType, c2) == Ok((p, after))
  {
    var kind := KindOf(userType).value;
    var (p, after) := CreateProfileOutcome(profiles, user, userType, c1).value;
    if FindProfile(profiles, user.id, kind).None? {
      FindProfileAppend(profiles, p);
    }
  }

  /** Looking up the profile just appended for a user that had none finds it. */
  lemma {:induction false} FindProfileAppend(profiles: seq<Profile>, p: Profile)
    requires FindProfile(profiles, p.user, p.kind).None?
    ensures FindProfile(profiles + [p], p.user, p.kind) == Some(p)
  {
    if profiles != [] {
      assert (profiles + [p])[1..] == profiles[1..] + [p];
      FindProfileAppend(profiles[1..], p);
    }
  }

  /** After profile creation, exactly one profile of that kind belongs to the user, whatever it was before. */
  lemma CreateProfileKeepsOnePerUser(users: seq<User>, profiles: seq<Profile>, user: User, userType: string, c: Option<string>)
    requires ProfilesValid(users, profiles)
    requires FindUser(users, user.id).Some?
    requires CreateProfileOutcome(profiles, user, userType, c).Ok?
    ensures ProfilesValid(users, CreateProfileOutcome(profiles, user, userType, c).value.1)
  {
    var kind := KindOf(userType).value;
    var (p, after) := CreateProfileOutcome(profiles, user, userType, c).value;
    if FindProfile(profiles, user.id, kind).None? {
      forall i, j | 0 <= i < j < |after| ensures after[i].kind != after[j].kind || after[i].user != after[j].user {
        if j == |profiles| {
          assert after[i] in profiles;
        }
      }
    }
  }

  /** `get_user_profile`: the profile matching the user's type, if it exists; none for any other type. */
  function GetUserProfile(profiles: seq<Profile>, user: User): (r: Option<Profile>)
    ensures r.Some? ==> r.value in profiles && r.value.user == user.id && Some(r.value.kind) == KindOf(user.userType)
    ensures KindOf(user.userType).None? ==> r.None?
    ensures KindOf(user.userType).Some? && r.None? ==>
      forall p :: p in profiles && p.user == user.id ==> p.kind != KindOf(user.userType).value
  {
    match KindOf(user.userType)
    case None => None
    case Some(kind) => FindProfile(profiles, user.id, kind)
  }

  /** A successful registration: the new user and the profile made for it. */
  datatype Registered = Registered(user: User, profile: Profile)

  /** The arguments `create_user_with_profile` passes to `create_user`. */
  function UserExtras(data: RegistrationData): ExtraFields {
    ExtraFields(None, None, None, Some(data.userType))
  }

  /**
   * `create_user_with_profile`: the pre-checks; then, in one transaction,
   * `create_user` with the lowercased email and the profile.  Any failure
   * inside the transaction surfaces as `CreationFailed` and leaves no trace.
   */
  function RegistrationOutcome(users: seq<User>, profiles: seq<Profile>, next: UserId,
                               data: RegistrationData, passwordProblems: seq<string>)
    : (r: Result<Registered, RegistrationError>)
    ensures ValidateRegistration(users, data, passwordProblems).Some? ==>
      r == Err(ValidateRegistration(users, data, passwordProblems).value)
    ensures r.Ok? ==>
      ValidateRegistration(users, data, passwordProblems).None? &&
      CreateUserOutcome(users, next, Lower(data.email), data.username, Some(data.password), UserExtras(data)) == Ok(r.value.user)
    ensures r.Ok? ==> r.value.user.id == next && r.value.user.userType == data.userType
    ensures r.Ok? ==> KindOf(data.userType) == Some(r.value.profile.kind)
    ensures r.Ok? ==> r.value.profile == NewProfile(r.value.profile.kind, next, EffectiveCompanyName(data.companyName, data.username))
    ensures ValidateRegistration(users, data, passwordProblems).None? && KindOf(data.userType).None? ==> r.Err?
  {
    match ValidateRegistration(users, data, passwordProblems)
    case Some(e) => Err(e)
    case None =>
      match CreateUserOutcome(users, next, Lower(data.email), data.username, Some(data.password), UserExtras(data))
      case Err(e) => Err(CreationFailed(UserFailure(e)))
      case Ok(u) =>
        match KindOf(data.userType)
        case None => Err(CreationFailed(InvalidUserType(data.userType)))
        case Some(kind) => Ok(Registered(u, NewProfile(kind, u.id, EffectiveCompanyName(data.companyName, u.username))))
  }

  /** A user with a fresh id has no profile yet. */
  lemma FreshUserHasNoProfile(users: seq<User>, profiles: seq<Profile>, next: UserId, kind: ProfileKind)
    requires UsersValid(users, next) && ProfilesValid(users, profiles)
    ensures FindProfile(profiles, next, kind).None?
  {
    forall p | p in profiles ensures p.user != next {
      assert FindUser(users, p.user).Some?;
    }
  }

  /**
   * A registered user's profile is found by `get_user_profile` and carries
   * the effective company name.
   */
  lemma RegisteredUserHasProfile(users: seq<User>, profiles: seq<Profile>, next: UserId,
                                 data: RegistrationData, passwordProblems: seq<string>)
    requires UsersValid(users, next) && ProfilesValid(users, profiles)
    requires RegistrationOutcome(users, profiles, next, data, passwordProblems).Ok?
    ensures var reg := RegistrationOutcome(users, profiles, next, data, passwordProblems).value;
      GetUserProfile(profiles + [reg.profile], reg.user) == Some(reg.profile) &&
      reg.profile.companyName == EffectiveCompanyName(data.companyName, data.username)
  {
    var reg := RegistrationOutcome(users, profiles, next, data, passwordProblems).value;
    FreshUserHasNoProfile(users, profiles, next, reg.profile.kind);
    FindProfileAppend(profiles, reg.profile);
  }

  /** The stored email is the lowercased address when it carries no surrounding whitespace. */
  lemma RegisteredEmailIsLowercase(users: seq<User>, profiles: seq<Profile>, next: UserId,
                                   data: RegistrationData, passwordProblems: seq<string>)
    requires Strip(data.email) == data.email
    requires RegistrationOutcome(users, profiles, next, data, passwordProblems).Ok?
    ensures RegistrationOutcome(users, profiles, next, data, passwordProblems).value.user.email == Lower(data.email)
  {
    var e := Lower(data.email);
    LowerKeepsStripped(data.email);
    LowerIdempotent(data.email);
    NormalizeKeepsLowercase(e);
  }

  /** Lowercasing twice is lowercasing once. */
  lemma LowerIdempotent(s: string)
    ensures Lower(Lower(s)) == Lower(s)
  {
    forall k | 0 <= k < |s| ensures Lower(Lower(s))[k] == Lower(s)[k] {
      var c := s[k];
      if 'A' <= c <= 'Z' {
        assert 'a' <= LowerChar(c) <= 'z';
      }
    }
  }

  /** `normalize_email` changes nothing in a stripped, lowercase address. */
  lemma NormalizeKeepsLowercase(e: string)
    requires Strip(e) == e
    requires Lower(e) == e
    ensures NormalizeEmail(e) == e
  {
    var at := LastIndexOf(e, '@');
    if at >= 0 {
      LowerSuffixFixed(e, at + 1);
      RejoinAt(e, at);
    }
  }

  lemma LowerSuffixFixed(e: string, i: nat)
    requires Lower(e) == e && i <= |e|
    ensures Lower(e[i..]) == e[i..]
  {
    var tail := e[i..];
    forall k | 0 <= k < |tail| ensures Lower(tail)[k] == tail[k] {
      assert tail[k] == e[i + k];
      assert Lower(e)[i + k] == LowerChar(e[i + k]);
    }
  }

  lemma RejoinAt(e: string, at: int)
    requires 0 <= at < |e| && e[at] == '@'
    ensures e[..at] + "@" + e[at + 1..] == e
  {
  }

  /** Lowercasing moves no whitespace, so a stripped address stays stripped. */
  lemma LowerKeepsStripped(s: string)
    requires Strip(s) == s
    ensures Strip(Lower(s)) == Lower(s)
  {
    var l := Lower(s);
    if s != [] {
      assert IsStripped(s);
      assert !IsSpace(l[0]) && !IsSpace(l[|l| - 1]);
      assert TrimStart(l) == l;
      assert TrimEnd(l) == l;
    }
  }

  /** Looking up the user just appended, whose id no other user has, finds it. */
  lemma {:induction false} FindUserAppendFresh(users: seq<User>, u: User)
    requires forall x :: x in users ==> x.id != u.id
    ensures FindUser(users + [u], u.id) == Some(u)
  {
    if users != [] {
      assert (users + [u])[1..] == users[1..] + [u];
      FindUserAppendFresh(users[1..], u);
    }
  }

  /**
   * A registration adds a fresh profile for the new user and keeps the
   * user table's and the profile tables' constraints.
   */
  lemma RegistrationKeepsValid(users: seq<User>, profiles: seq<Profile>, next: UserId,
                               data: RegistrationData, passwordProblems: seq<string>)
    requires UsersValid(users, next) && ProfilesValid(users, profiles)
    requires RegistrationOutcome(users, profiles, next, data, passwordProblems).Ok?
    ensures var reg := RegistrationOutcome(users, profiles, next, data, passwordProblems).value;
      CreateProfileOutcome(profiles, reg.user, data.userType, data.companyName) == Ok((reg.profile, profiles + [reg.profile])) &&
      UsersValid(users + [reg.user], next + 1) && ProfilesValid(users + [reg.user], profiles + [reg.profile])
  {
    var reg := RegistrationOutcome(users, profiles, next, data, passwordProblems).value;
    var u, p := reg.user, reg.profile;
    CreateKeepsUsersValid(users, next, Lower(data.email), data.username, Some(data.password), UserExtras(data));
    FreshUserHasNoProfile(users, profiles, next, p.kind);
    var us, ps := users + [u], profiles + [p];
    forall q | q in ps ensures FindUser(us, q.user).Some? {
      if q in profiles {
        FindUserExtend(users, u, q.user);
      } else {
        FindUserAppendFresh(users, u);
      }
    }
    forall i, j | 0 <= i < j < |ps| ensures ps[i].kind != ps[j].kind || ps[i].user != ps[j].user {
      if j == |profiles| {
        assert ps[i] in profiles;
        assert FindUser(users, ps[i].user).Some?;
      }
    }
  }

  /**
   * `create_user_with_profile` against the store: both rows are written,
   * or, when anything inside the transaction fails, neither is.
   */
  method CreateUserWithProfile(store: UserStore, data: RegistrationData, passwordProblems: seq<string>)
    returns (r: Result<Registered, RegistrationError>)
    requires store.Valid()
    modifies store
    ensures store.Valid()
    ensures r == RegistrationOutcome(old(store.users), old(store.profiles), old(store.nextId), data, passwordProblems)
    ensures r.Ok? ==>
      store.users == old(store.users) + [r.value.user] &&
      store.profiles == old(store.profiles) + [r.value.profile] &&
      store.nextId == old(store.nextId) + 1
    ensures r.Err? ==>
      store.users == old(store.users) && store.profiles == old(store.profiles) && store.nextId == old(store.nextId)
  {
    var check := ValidateRegistration(store.users, data, passwordProblems);
    if check.Some? {
      return Err(check.value);
    }
    ghost var users0, profiles0, next0 := store.users, store.profiles, store.nextId;
    var created := store.CreateUser(Lower(data.email), data.username, Some(data.password), UserExtras(data));
    if created.Err? {
      return Err(CreationFailed(UserFailure(created.error)));
    }
    var u := created.value;
    var made := CreateProfileOutcome(store.profiles, u, data.userType, data.companyName);
    if made.Err? {
      // the transaction rolls back: the new user row goes
      store.users := store.users[..|store.users| - 1];
      store.nextId := store.nextId - 1;
      assert store.users == users0 by { assert (users0 + [u])[..|users0|] == users0; }
      return Err(CreationFailed(made.error));
    }
    RegistrationKeepsValid(users0, profiles0, next0, data, passwordProblems);
    store.profiles := made.value.1;
    r := Ok(Registered(u, made.value.0));
  }
}
