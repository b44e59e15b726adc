/**
 * The user table and the two profile tables, with the manager methods
 * `create_user` and `create_superuser`.  A user's type is kept as the text
 * the column holds, so that a value outside "buyer"/"supplier" can be
 * represented.  Password hashing is not modelled: the password is stored
 * as given.
 */
module UserModels {
  import opened Wrappers
  import opened Text

  type UserId = nat

  const BUYER: string := "buyer"
  const SUPPLIER: string := "supplier"

  datatype User = User(
    id: UserId,
    email: string,
    username: string,
    password: Option<string>,
    userType: string,
    isActive: bool,
    isStaff: bool,
    isSuperuser: bool)

  datatype ProfileKind = BuyerProfile | SupplierProfile

  /** Both profile models; the website, description, location and return-policy fields exist on supplier profiles only. */
  datatype Profile = Profile(
    kind: ProfileKind,
    user: UserId,
    companyName: string,
    phone: Option<string>,
    paymentMethod: Option<string>,
    website: Option<string>,
    description: Option<string>,
    location: Option<string>,
    returnPolicy: Option<string>,
    logo: Option<string>)

  /** The keyword arguments `create_user` passes on to the model; `None` when not given. */
  datatype ExtraFields = ExtraFields(
    isStaff: Option<bool>,
    isSuperuser: Option<bool>,
    isActive: Option<bool>,
    userType: Option<string>)

  datatype UserError = ValueError(msg: string) | IntegrityError

  function FindUser(users: seq<User>, id: UserId): (r: Option<User>)
    ensures r.Some? ==> r.value in users && r.value.id == id
    ensures r.None? ==> forall u :: u in users ==> u.id != id
  {
    if users == [] then None
    else if users[0].id == id then Some(users[0])
    else FindUser(users[1..], id)
  }

  /** The profile of the given kind that belongs to `user`, if there is one. */
  function FindProfile(profiles: seq<Profile>, user: UserId, kind: ProfileKind): (r: Option<Profile>)
    ensures r.Some? ==> r.value in profiles && r.value.user == user && r.value.kind == kind
    ensures r.None? ==> forall p :: p in profiles ==> p.user != user || p.kind != kind
  {
    if profiles == [] then None
    else if profiles[0].user == user && profiles[0].kind == kind then Some(profiles[0])
    else FindProfile(profiles[1..], user, kind)
  }

  predicate EmailTaken(users: seq<User>, email: string) {
    exists i :: 0 <= i < |users| && users[i].email == email
  }

  predicate UsernameTaken(users: seq<User>, username: string) {
    exists i :: 0 <= i < |users| && users[i].username == username
  }

  /**
   * `BaseUserManager.normalize_email`: split the stripped address at its last
   * '@' and lower-case the domain part; an address without '@' is returned
   * as given.
   */
  function NormalizeEmail(email: string): (r: string)
    ensures var s := Strip(email); var at := LastIndexOf(s, '@');
      (at < 0 ==> r == email) &&
      (at >= 0 ==> |r| == |s| && r[..at + 1] == s[..at + 1] && r[at + 1..] == Lower(s[at + 1..]))
  {
    var s := Strip(email);
    var at := LastIndexOf(s, '@');
    if at < 0 then email else s[..at] + "@" + Lower(s[at + 1..])
  }

  /** The row `create_user` saves for arguments that pass its checks. */
  function NewUser(id: UserId, email: string, username: string, password: Option<string>, extra: ExtraFields): User {
    User(id, NormalizeEmail(email), username, password,
         extra.userType.GetOr(BUYER), extra.isActive.GetOr(true),
         extra.isStaff.GetOr(false), extra.isSuperuser.GetOr(false))
  }

  /**
   * What `create_user` does to a user table whose next fresh id is `next`:
   * `ValueError` for an empty email or username (checked in that order),
   * `IntegrityError` when the email or the username is already taken, and
   * otherwise the new user with the model's defaults (type buyer, active,
   * neither staff nor superuser).
   */
  function CreateUserOutcome(users: seq<User>, next: UserId, email: string, username: string,
                             password: Option<string>, extra: ExtraFields): (r: Result<User, UserError>)
    ensures email == [] ==> r == Err(ValueError("Users must have an email address"))
    ensures email != [] && username == [] ==> r == Err(ValueError("Users must have a username"))
    ensures r.Ok? ==>
      email != [] && username != [] &&
      !EmailTaken(users, r.value.email) && !UsernameTaken(users, username) &&
      r.value.id == next && r.value.username == username && r.value.email == NormalizeEmail(email)
    ensures r.Ok? ==>
      (extra.userType.None? ==> r.value.userType == BUYER) &&
      (extra.isActive.None? ==> r.value.isActive) &&
      (extra.isStaff.None? ==> !r.value.isStaff) && (extra.isSuperuser.None? ==> !r.value.isSuperuser)
    ensures email != [] && username != [] && r.Err? ==>
      r == Err(IntegrityError) && (EmailTaken(users, NormalizeEmail(email)) || UsernameTaken(users, username))
  {
    if email == [] then Err(ValueError("Users must have an email address"))
    else if username == [] then Err(ValueError("Users must have a username"))
    else
      var u := NewUser(next, email, username, password, extra);
      if EmailTaken(users, u.email) || UsernameTaken(users, u.username) then Err(IntegrityError)
      else Ok(u)
  }

  /** `create_superuser`'s `setdefault` calls: what the caller gave is kept, the rest is filled in. */
  function SuperuserDefaults(extra: ExtraFields): (r: ExtraFields)
    ensures r.isStaff.Some? && r.isSuperuser.Some? && r.isActive.Some? && r.userType.Some?
    ensures extra.isStaff.Some? ==> r.isStaff == extra.isStaff
    ensures extra.isSuperuser.Some? ==> r.isSuperuser == extra.isSuperuser
    ensures extra.isActive.Some? ==> r.isActive == extra.isActive
    ensures extra.userType.Some? ==> r.userType == extra.userType
    ensures extra.isStaff.None? ==> r.isStaff == Some(true)
    ensures extra.isSuperuser.None? ==> r.isSuperuser == Some(true)
    ensures extra.isActive.None? ==> r.isActive == Some(true)
    ensures extra.userType.None? ==> r.userType == Some(SUPPLIER)
  {
    ExtraFields(Some(extra.isStaff.GetOr(true)), Some(extra.isSuperuser.GetOr(true)),
                Some(extra.isActive.GetOr(true)), Some(extra.userType.GetOr(SUPPLIER)))
  }

  /** What `create_superuser` does: the `is_staff` and `is_superuser` checks, then `create_user`. */
  function CreateSuperuserOutcome(users: seq<User>, next: UserId, email: string, username: string,
                                  password: Option<string>, extra: ExtraFields): (r: Result<User, UserError>)
    ensures !extra.isStaff.GetOr(true) ==> r == Err(ValueError("Superuser must have is_staff=True."))
    ensures extra.isStaff.GetOr(true) && !extra.isSuperuser.GetOr(true) ==>
      r == Err(ValueError("Superuser must have is_superuser=True."))
    ensures r.Ok? ==> r.value.isStaff && r.value.isSuperuser
  {
    var e := SuperuserDefaults(extra);
    if e.isStaff != Some(true) then Err(ValueError("Superuser must have is_staff=True."))
    else if e.isSuperuser != Some(true) then Err(ValueError("Superuser must have is_superuser=True."))
    else CreateUserOutcome(users, next, email, username, password, e)
  }

  /** A superuser created without extra fields is an active supplier with staff and superuser rights. */
  lemma SuperuserWithoutExtras(users: seq<User>, next: UserId, email: string, username: string, password: Option<string>)
    requires CreateSuperuserOutcome(users, next, email, username, password, ExtraFields(None, None, None, None)).Ok?
    ensures var u := CreateSuperuserOutcome(users, next, email, username, password, ExtraFields(None, None, None, None)).value;
      u.isStaff && u.isSuperuser && u.isActive && u.userType == SUPPLIER
  {
  }

  /** The user table's constraints: ids below the id source, and unique ids, emails and usernames. */
  ghost predicate UsersValid(users: seq<User>, next: UserId) {
    (forall u :: u in users ==> u.id < next) &&
    (forall i, j :: 0 <= i < j < |users| ==>
       users[i].id != users[j].id && users[i].email != users[j].email && users[i].username != users[j].username)
  }

  /** The profile tables: one profile of each kind per user at most, each for an existing user. */
  ghost predicate ProfilesValid(users: seq<User>, profiles: seq<Profile>) {
    (forall p :: p in profiles ==> FindUser(users, p.user).Some?) &&
    (forall i, j :: 0 <= i < j < |profiles| ==> profiles[i].kind != profiles[j].kind || profiles[i].user != profiles[j].user)
  }

  lemma CreateKeepsUsersValid(users: seq<User>, next: UserId, email: string, username: string,
                              password: Option<string>, extra: ExtraFields)
    requires UsersValid(users, next)
    requires CreateUserOutcome(users, next, email, username, password, extra).Ok?
    ensures UsersValid(users + [CreateUserOutcome(users, next, email, username, password, extra).value], next + 1)
  {
    var u := CreateUserOutcome(users, next, email, username, password, extra).value;
    var us := users + [u];
    forall i, j | 0 <= i < j < |us|
      ensures us[i].id != us[j].id && us[i].email != us[j].email && us[i].username != us[j].username
    {
      if j == |users| {
        assert us[i] in users;
        assert users[i].email != u.email;
        assert users[i].username != u.username;
      }
    }
  }

  lemma {:induction false} FindUserExtend(users: seq<User>, u: User, id: UserId)
    requires FindUser(users, id).Some?
    ensures FindUser(users + [u], id) == FindUser(users, id)
  {
    if users[0].id != id {
      assert (users + [u])[1..] == users[1..] + [u];
      FindUserExtend(users[1..], u, id);
    }
  }

  class UserStore {
    var users: seq<User>
    var profiles: seq<Profile>
    /** Source of fresh identifiers (`uuid4` in the database). */
    var nextId: nat

    ghost predicate Valid()
      reads this
    {
      UsersValid(users, nextId) && ProfilesValid(users, profiles)
    }

    constructor ()
      ensures Valid() && users == [] && profiles == []
    {
      users, profiles, nextId := [], [], 0;
    }

    /** `CustomUserManager.create_user`. */
    method CreateUser(email: string, username: string, password: Option<string>, extra: ExtraFields)
      returns (r: Result<User, UserError>)
      requires Valid()
      modifies this
      ensures Valid()
      ensures r == CreateUserOutcome(old(users), old(nextId), email, username, password, extra)
      ensures profiles == old(profiles)
      ensures r.Ok? ==> users == old(users) + [r.value] && nextId == old(nextId) + 1
      ensures r.Err? ==> users == old(users) && nextId == old(nextId)
    {
      r := CreateUserOutcome(users, nextId, email, username, password, extra);
      if r.Ok? {
        CreateKeepsUsersValid(users, nextId, email, username, password, extra);
        forall p | p in profiles ensures FindUser(users + [r.value], p.user).Some? {
          FindUserExtend(users, r.value, p.user);
        }
        users := users + [r.value];
        nextId := nextId + 1;
      }
    }

    /** `CustomUserManager.create_superuser`. */
    method CreateSuperuser(email: string, username: string, password: Option<string>, extra: ExtraFields)
      returns (r: Result<User, UserError>)
      requires Valid()
      modifies this
      ensures Valid()
      ensures r == CreateSuperuserOutcome(old(users), old(nextId), email, username, password, extra)
      ensures profiles == old(profiles)
      ensures r.Ok? ==> users == old(users) + [r.value] && nextId == old(nextId) + 1
      ensures r.Err? ==> users == old(users) && nextId == old(nextId)
    {
      var e := SuperuserDefaults(extra);
      if e.isStaff != Some(true) {
        return Err(ValueError("Superuser must have is_staff=True."));
      }
      if e.isSuperuser != Some(true) {
        return Err(ValueError("Superuser must have is_superuser=True."));
      }
      r := CreateUser(email, username, password, e);
    }
  }
}
