/**
 * The authentication schemas (sign-up, sign-in, profile, profile update, role
 * update) as predicates with their issue lists, and the auth error classes.
 */
module AuthSchemas {
  import opened Wrappers
  import opened Domain
  import opened Errors
  import opened Schemas

  /** Fixed texts for the rules these schemas state without a message of their own. */
  const InvalidUuid: string := "Invalid uuid"
  const InvalidInput: string := "Invalid input"
  const TooLong100: string := "String must contain at most 100 character(s)"

  datatype SignUpData = SignUpData(
    email: string,
    password: string,
    confirmPassword: string,
    fullName: string,
    agreeToTerms: bool)

  /** Sign-up: a valid email, a password of 8 to 72 characters, a name of 2 to 100, terms accepted, and matching passwords. */
  predicate ValidSignUp(d: SignUpData, fmt: Formats)
  {
    fmt.isEmail(d.email)
    && 8 <= |d.password| <= 72
    && 2 <= |d.fullName| <= 100
    && d.agreeToTerms
    && d.password == d.confirmPassword
  }

  /**
   * The field rules in declaration order, then the object-level password match,
   * which still runs when a field rule has failed and reports on confirmPassword.
   */
  function SignUpIssues(d: SignUpData, fmt: Formats): (r: seq<Issue>)
    ensures r == [] <==> ValidSignUp(d, fmt)
    ensures d.password != d.confirmPassword ==> r[|r| - 1] == Issue(["confirmPassword"], "Passwords do not match")
  {
    Check(fmt.isEmail(d.email), "email", "Invalid email address")
    + Check(|d.password| >= 8, "password", "Password must be at least 8 characters")
    + Check(|d.password| <= 72, "password", "Password must be less than 72 characters")
    + Check(|d.fullName| >= 2, "fullName", "Full name must be at least 2 characters")
    + Check(|d.fullName| <= 100, "fullName", "Full name must be less than 100 characters")
    + Check(d.agreeToTerms, "agreeToTerms", "You must agree to the terms and conditions")
    + Check(d.password == d.confirmPassword, "confirmPassword", "Passwords do not match")
  }

  /** The password bounds are inclusive: 8 and 72 characters are both accepted. */
  lemma SignUpPasswordBounds(d: SignUpData, fmt: Formats)
    requires fmt.isEmail(d.email) && 2 <= |d.fullName| <= 100 && d.agreeToTerms
    requires d.password == d.confirmPassword
    ensures ValidSignUp(d, fmt) <==> 8 <= |d.password| <= 72
  {
  }

  datatype SignInData = SignInData(email: string, password: string)

  /** Sign-in: a valid email and a non-empty password, nothing more. */
  predicate ValidSignIn(d: SignInData, fmt: Formats)
  {
    fmt.isEmail(d.email) && |d.password| >= 1
  }

  function SignInIssues(d: SignInData, fmt: Formats): (r: seq<Issue>)
    ensures r == [] <==> ValidSignIn(d, fmt)
  {
    Check(fmt.isEmail(d.email), "email", "Invalid email address")
    + Check(|d.password| >= 1, "password", "Password is required")
  }

  /** A profile row: uuid id, valid email, URL or null or "" avatar, known role. */
  predicate ValidProfile(p: Profile, fmt: Formats)
  {
    fmt.isUuid(p.id) && fmt.isEmail(p.email)
    && (p.avatarUrl.None? || p.avatarUrl.value == "" || fmt.isUrl(p.avatarUrl.value))
    && IsRole(p.role)
  }

  function ProfileIssues(p: Profile, fmt: Formats): (r: seq<Issue>)
    ensures r == [] <==> ValidProfile(p, fmt)
  {
    Check(fmt.isUuid(p.id), "id", InvalidUuid)
    + Check(fmt.isEmail(p.email), "email", InvalidEmail)
    + Check(p.avatarUrl.None? || p.avatarUrl.value == "" || fmt.isUrl(p.avatarUrl.value), "avatar_url", InvalidInput)
    + Check(IsRole(p.role), "role", InvalidEnum)
  }

  /**
   * A profile update; `avatarUrl` is None when left out, Some(None) when set to
   * null, and Some(Some(u)) when set to `u`.
   */
  datatype UpdateProfileData = UpdateProfileData(
    fullName: Option<string>,
    email: Option<string>,
    avatarUrl: Option<Option<string>>)

  /** Every field is optional; a present name has 2 to 100 characters, a present URL is valid. */
  predicate ValidUpdateProfile(u: UpdateProfileData, fmt: Formats)
  {
    Holds(u.fullName, (s: string) => 2 <= |s| <= 100)
    && Holds(u.email, fmt.isEmail)
    && (u.avatarUrl.None? || u.avatarUrl.value.None? || fmt.isUrl(u.avatarUrl.value.value))
  }

  function UpdateProfileIssues(u: UpdateProfileData, fmt: Formats): (r: seq<Issue>)
    ensures r == [] <==> ValidUpdateProfile(u, fmt)
  {
    Check(Holds(u.fullName, (s: string) => |s| >= 2), "full_name", "Full name must be at least 2 characters")
    + Check(Holds(u.fullName, (s: string) => |s| <= 100), "full_name", "Full name must be less than 100 characters")
    + Check(Holds(u.email, fmt.isEmail), "email", "Invalid email address")
    + Check(u.avatarUrl.None? || u.avatarUrl.value.None? || fmt.isUrl(u.avatarUrl.value.value), "avatar_url", "Invalid URL")
  }

  /** The empty update is valid. */
  lemma EmptyUpdateProfileValid(fmt: Formats)
    ensures UpdateProfileIssues(UpdateProfileData(None, None, None), fmt) == []
  {
  }

  datatype UpdateUserRoleData = UpdateUserRoleData(userId: string, role: string)

  predicate ValidUpdateUserRole(d: UpdateUserRoleData, fmt: Formats)
  {
    fmt.isUuid(d.userId) && IsRole(d.role)
  }

  function UpdateUserRoleIssues(d: UpdateUserRoleData, fmt: Formats): (r: seq<Issue>)
    ensures r == [] <==> ValidUpdateUserRole(d, fmt)
  {
    Check(fmt.isUuid(d.userId), "userId", InvalidUuid)
    + Check(IsRole(d.role), "role", InvalidEnum)
  }

  // ---------------------------------------------------------------- errors

  const UnauthorizedCode: string := "UNAUTHORIZED"
  const ForbiddenCode: string := "FORBIDDEN"

  /** `new AuthError(message, code?)`. */
  function NewAuthError(message: string, code: Option<string>): (e: Thrown)
    ensures e.cls == AuthError && e.message == message && e.code == code
  {
    Thrown(AuthError, message, code)
  }

  /** `new UnauthorizedError(message?)`: an auth error with code UNAUTHORIZED. */
  function Unauthorized(message: Option<string>): (e: Thrown)
    ensures e.cls == AuthError && e.code == Some(UnauthorizedCode)
    ensures message.Some? ==> e.message == message.value
    ensures message.None? ==> e.message == "Unauthorized access"
  {
    NewAuthError(message.GetOr("Unauthorized access"), Some(UnauthorizedCode))
  }

  /** `new ForbiddenError(message?)`: an auth error with code FORBIDDEN. */
  function Forbidden(message: Option<string>): (e: Thrown)
    ensures e.cls == AuthError && e.code == Some(ForbiddenCode)
    ensures message.Some? ==> e.message == message.value
    ensures message.None? ==> e.message == "Forbidden: Insufficient permissions"
  {
    NewAuthError(message.GetOr("Forbidden: Insufficient permissions"), Some(ForbiddenCode))
  }

  /** The two subclasses are told apart by their codes, whatever their messages. */
  lemma UnauthorizedIsNotForbidden(m1: Option<string>, m2: Option<string>)
    ensures Unauthorized(m1) != Forbidden(m2)
  {
    assert Unauthorized(m1).code != Forbidden(m2).code;
  }
}
