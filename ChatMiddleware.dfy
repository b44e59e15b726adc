/**
 * The websocket authentication middleware: which identity a connection's
 * scope carries.  Decoding a JWT is the library's business; its outcome is
 * an input here (`Decoded`).
 */
module ChatMiddleware {
  import opened Wrappers
  import UserModels

  /** The scope's `user`: Django's anonymous user, or an account. */
  datatype Identity = Anonymous | Authenticated(user: UserModels.User)

  /**
   * What `AccessToken(token_str)` yields: a token error, or a token whose
   * `user_id` claim is absent or falsy (`None`) or names an id.
   */
  datatype Decoded = TokenError | Claims(userId: Option<UserModels.UserId>)

  /**
   * `get_user_from_token`: the active user the claim names; anonymous for a
   * bad token, a missing claim, an unknown id and an inactive user.
   */
  function UserFromToken(users: seq<UserModels.User>, d: Decoded): (r: Identity)
    ensures r.Authenticated? <==>
      d.Claims? && d.userId.Some? && UserModels.FindUser(users, d.userId.value).Some? &&
      UserModels.FindUser(users, d.userId.value).value.isActive
    ensures r.Authenticated? ==> r.user in users && r.user.id == d.userId.value && r.user.isActive
  {
    match d
    case TokenError => Anonymous
    case Claims(None) => Anonymous
    case Claims(Some(id)) =>
      match UserModels.FindUser(users, id)
      case None => Anonymous
      case Some(u) => if !u.isActive then Anonymous else Authenticated(u)
  }

  /** With unique ids, an authenticated scope carries exactly the active account the claim names. */
  lemma TokenNamesTheUser(users: seq<UserModels.User>, u: UserModels.User)
    requires forall a, b :: a in users && b in users && a.id == b.id ==> a == b
    requires u in users && u.isActive
    ensures UserFromToken(users, Claims(Some(u.id))) == Authenticated(u)
  {
  }

  /** The connection scope; `user` is absent until the middleware has run. */
  class Scope {
    var user: Option<Identity>

    constructor ()
      ensures user.None?
    {
      user := None;
    }
  }

  /**
   * The identity for the `token` values of the query string, in order: the
   * first one decides, and no token at all means anonymous.
   */
  function ScopeUser(users: seq<UserModels.User>, tokens: seq<string>, decode: string -> Decoded): (r: Identity)
    ensures tokens == [] ==> r == Anonymous
    ensures tokens != [] ==> r == UserFromToken(users, decode(tokens[0]))
    ensures r.Authenticated? ==> r.user in users && r.user.isActive
  {
    if tokens == [] then Anonymous else UserFromToken(users, decode(tokens[0]))
  }

  /** Later `token` values never matter. */
  lemma OnlyFirstTokenCounts(users: seq<UserModels.User>, t: string, rest1: seq<string>, rest2: seq<string>, decode: string -> Decoded)
    ensures ScopeUser(users, [t] + rest1, decode) == ScopeUser(users, [t] + rest2, decode)
  {
  }

  /** `JWTAuthMiddleware.__call__`: writes the identity into the scope. */
  method Authenticate(scope: Scope, users: seq<UserModels.User>, tokens: seq<string>, decode: string -> Decoded)
    modifies scope
    ensures scope.user == Some(ScopeUser(users, tokens, decode))
  {
    if |tokens| > 0 {
      var token := tokens[0];
      scope.user := Some(UserFromToken(users, decode(token)));
    } else {
      scope.user := Some(Anonymous);
    }
  }
}
