/**
 * The registration input's field validators.  Email syntax (`EmailStr`) is
 * not modelled; the address is kept as given.
 */
module UserSchemas {
  import opened Wrappers
  import opened Text
  import UserModels

  const USERNAME_TOO_SHORT: string := "Username must be at least 3 characters long"
  const USERNAME_TOO_LONG: string := "Username must be at most 150 characters long"
  const USERNAME_BAD_CHARS: string := "Username can only contain alphanumeric characters, underscores, and hyphens"
  const USER_TYPE_INVALID: string := "User type must be either \"buyer\" or \"supplier\""
  const COMPANY_TOO_SHORT: string := "Company name must be at least 2 characters long"
  const COMPANY_TOO_LONG: string := "Company name must be at most 255 characters long"

  /** `\w` on ASCII: letters, digits and the underscore. */
  predicate IsWordChar(c: char) {
    ('a' <= c <= 'z') || ('A' <= c <= 'Z') || ('0' <= c <= '9') || c == '_'
  }

  /** The class `[\w-]`. */
  predicate UsernameChar(c: char) { IsWordChar(c) || c == '-' }

  predicate AllUsernameChars(s: string) {
    forall i :: 0 <= i < |s| ==> UsernameChar(s[i])
  }

  /** The length of the longest prefix of `s` drawn from `[\w-]`. */
  function WordRun(s: string): (n: nat)
    ensures n <= |s| && AllUsernameChars(s[..n])
    ensures n < |s| ==> !UsernameChar(s[n])
  {
    if s == [] || !UsernameChar(s[0]) then 0
    else
      var n := 1 + WordRun(s[1..]);
      assert s[..n] == [s[0]] + s[1..][..n - 1];
      n
  }

  /** Where Python's `$` matches (no MULTILINE): at the end, or just before a final newline. */
  predicate DollarAt(s: string, p: nat) {
    p == |s| || (p + 1 == |s| && s[p] == '\n')
  }

  /**
   * `re.match(r'^[\w-]+$', v)` as written.  The greedy run is the only
   * candidate: a shorter run ends before a `[\w-]` character, where `$`
   * cannot match.
   */
  function UsernamePatternAsWritten(s: string): bool {
    var n := WordRun(s);
    n >= 1 && DollarAt(s, n)
  }

  /** The as-written pattern also accepts a valid name followed by one newline. */
  lemma UsernamePatternAsWrittenIff(s: string)
    ensures UsernamePatternAsWritten(s) <==>
      (s != [] && AllUsernameChars(s)) ||
      (|s| >= 2 && s[|s| - 1] == '\n' && AllUsernameChars(s[..|s| - 1]))
  {
    var n := WordRun(s);
    if s != [] && AllUsernameChars(s) {
      assert n == |s|;
    } else if |s| >= 2 && s[|s| - 1] == '\n' && AllUsernameChars(s[..|s| - 1]) {
      assert n == |s| - 1;
    }
  }

  /** `re.fullmatch(r'[\w-]+', v)`: the whole text is one non-empty run. */
  function UsernamePattern(s: string): (r: bool)
    ensures r <==> s != [] && AllUsernameChars(s)
  {
    var n := WordRun(s);
    assert n == |s| ==> s[..n] == s;
    n >= 1 && n == |s|
  }

  /** The two length checks, in the validator's order. */
  function UsernameLengthError(v: string): (r: Option<string>)
    ensures r.None? <==> 3 <= |v| <= 150
  {
    if |v| < 3 then Some(USERNAME_TOO_SHORT)
    else if |v| > 150 then Some(USERNAME_TOO_LONG)
    else None
  }

  /** `validate_username` as written. */
  function ValidateUsernameAsWritten(v: string): (r: Result<string, string>)
    ensures r.Ok? ==> r.value == v && 3 <= |v| <= 150
    ensures r.Ok? <==> UsernameLengthError(v).None? && UsernamePatternAsWritten(v)
  {
    match UsernameLengthError(v)
    case Some(e) => Err(e)
    case None => if UsernamePatternAsWritten(v) then Ok(v) else Err(USERNAME_BAD_CHARS)
  }

  /**
   * A name of three word characters and a newline passes the as-written
   * validator, though a newline is none of the characters its message allows.
   */
  lemma TrailingNewlineSlipsThrough()
    ensures ValidateUsernameAsWritten("abc\n") == Ok("abc\n")
    ensures ValidateUsername("abc\n").Err?
  {
    var s := "abc\n";
    assert s[..3] == "abc";
    UsernamePatternAsWrittenIff(s);
    assert !UsernameChar(s[3]);
  }

  /**
   * `validate_username` with the pattern matched against the whole text:
   * too short, too long, then bad characters.
   */
  function ValidateUsername(v: string): (r: Result<string, string>)
    ensures r.Ok? <==> 3 <= |v| <= 150 && AllUsernameChars(v)
    ensures r.Ok? ==> r.value == v
    ensures |v| < 3 ==> r == Err(USERNAME_TOO_SHORT)
    ensures |v| > 150 ==> r == Err(USERNAME_TOO_LONG)
    ensures 3 <= |v| <= 150 && !AllUsernameChars(v) ==> r == Err(USERNAME_BAD_CHARS)
  {
    match UsernameLengthError(v)
    case Some(e) => Err(e)
    case None => if UsernamePattern(v) then Ok(v) else Err(USERNAME_BAD_CHARS)
  }

  /** Every name the corrected validator accepts, the as-written one accepts too. */
  lemma CorrectedIsStricter(v: string)
    ensures ValidateUsername(v).Ok? ==> ValidateUsernameAsWritten(v) == ValidateUsername(v)
  {
    UsernamePatternAsWrittenIff(v);
  }

  /**
   * An optional field of the request body: left out (the default applies
   * and no validator runs), sent as `null`, or sent with a value.
   */
  datatype FieldInput<T> = Omitted | Null | Given(value: T)

  /** `user_type`: "buyer" when left out; an explicit value, `null` included, must be buyer or supplier. */
  function ValidateUserType(f: FieldInput<string>): (r: Result<string, string>)
    ensures r.Ok? <==> f.Omitted? || (f.Given? && (f.value == UserModels.BUYER || f.value == UserModels.SUPPLIER))
    ensures r.Ok? ==> r.value == UserModels.BUYER || r.value == UserModels.SUPPLIER
    ensures f.Given? && r.Ok? ==> r.value == f.value
    ensures r.Err? ==> r.error == USER_TYPE_INVALID
  {
    match f
    case Omitted => Ok(UserModels.BUYER)
    case Null => Err(USER_TYPE_INVALID)
    case Given(t) => if t in [UserModels.BUYER, UserModels.SUPPLIER] then Ok(t) else Err(USER_TYPE_INVALID)
  }

  /** `company_name`: absent stays absent; a given name is stripped and must then be 2 to 255 characters. */
  function ValidateCompanyName(f: FieldInput<string>): (r: Result<Option<string>, string>)
    ensures !f.Given? ==> r == Ok(None)
    ensures f.Given? ==> (r.Ok? <==> 2 <= |Strip(f.value)| <= 255)
    ensures f.Given? && r.Ok? ==> r.value == Some(Strip(f.value)) && IsStripped(r.value.value)
    ensures f.Given? && |Strip(f.value)| < 2 ==> r == Err(COMPANY_TOO_SHORT)
    ensures f.Given? && |Strip(f.value)| > 255 ==> r == Err(COMPANY_TOO_LONG)
  {
    match f
    case Given(v) =>
      var s := Strip(v);
      if |s| < 2 then Err(COMPANY_TOO_SHORT)
      else if |s| > 255 then Err(COMPANY_TOO_LONG)
      else Ok(Some(s))
    case _ => Ok(None)
  }

  /** A validated company name keeps its value through a second validation. */
  lemma CompanyNameStable(v: string)
    requires ValidateCompanyName(Given(v)).Ok?
    ensures ValidateCompanyName(Given(ValidateCompanyName(Given(v)).value.value)) == ValidateCompanyName(Given(v))
  {
    var s := Strip(v);
    assert ValidateCompanyName(Given(v)) == Ok(Some(s));
    StripIdempotent(v);
    CompanyNameOfStripped(s);
  }

  lemma CompanyNameOfStripped(s: string)
    requires Strip(s) == s && 2 <= |s| <= 255
    ensures ValidateCompanyName(Given(s)) == Ok(Some(s))
  {
  }

  datatype RegisterBody = RegisterBody(
    email: string, username: string, password: string, passwordConfirm: string,
    userType: FieldInput<string>, companyName: FieldInput<string>)

  datatype RegisterInput = RegisterInput(
    email: string, username: string, password: string, passwordConfirm: string,
    userType: string, companyName: Option<string>)

  function ErrorOf<T>(r: Result<T, string>): seq<string> {
    if r.Err? then [r.error] else []
  }

  /**
   * `RegisterInputSchema`: every field validator runs, and the body is
   * rejected with all their messages, in field order, when any fails.
   */
  function ParseRegisterInput(b: RegisterBody): (r: Result<RegisterInput, seq<string>>)
    ensures r.Ok? <==>
      ValidateUsername(b.username).Ok? && ValidateUserType(b.userType).Ok? && ValidateCompanyName(b.companyName).Ok?
    ensures r.Ok? ==>
      r.value.email == b.email && r.value.username == b.username &&
      r.value.password == b.password && r.value.passwordConfirm == b.passwordConfirm &&
      (r.value.userType == UserModels.BUYER || r.value.userType == UserModels.SUPPLIER) &&
      (b.companyName.Given? ==> r.value.companyName == Some(Strip(b.companyName.value))) &&
      (!b.companyName.Given? ==> r.value.companyName.None?)
    ensures r.Err? ==> r.error != []
    ensures r.Err? ==>
      r.error == ErrorOf(ValidateUsername(b.username)) + ErrorOf(ValidateUserType(b.userType)) +
                 ErrorOf(ValidateCompanyName(b.companyName))
  {
    var u := ValidateUsername(b.username);
    var t := ValidateUserType(b.userType);
    var c := ValidateCompanyName(b.companyName);
    if u.Ok? && t.Ok? && c.Ok? then
      Ok(RegisterInput(b.email, b.username, b.password, b.passwordConfirm, t.value, c.value))
    else
      Err(ErrorOf(u) + ErrorOf(t) + ErrorOf(c))
  }
}
