// The request dependencies that guard the API: a bearer token must verify to
// a (non-empty) user; the admin guard needs "admin" among the user's groups;
// the verified-email guard needs a truthy `email_verified`.

module Dependencies {
  import opened Common
  import opened CognitoAuth

  const InvalidToken: Exception := HttpException(401, "Invalid authentication token")
  const AdminRequired: Exception := HttpException(403, "Admin access required")
  const EmailNotVerified: Exception := HttpException(403, "Email verification required")

  /** `get_current_user`, given what `verify_cognito_token` answered for the
      bearer token. */
  function GetCurrentUser(userInfo: Option<Claims>): (r: Result<Claims>)
    ensures r.Ok? <==> userInfo.Some? && userInfo.value != map[]
    ensures r.Ok? ==> r.value == userInfo.value
    ensures r.Raised? ==> r.exc == InvalidToken
  {
    if userInfo.None? || userInfo.value == map[] then Raised(InvalidToken) else Ok(userInfo.value)
  }

  /** `get_current_user_optional`: no credentials, no user; otherwise what
      the verifier answered, unchecked. The `HTTPBearer()` scheme it depends
      on refuses a request without credentials first, so the first case is
      not reached through the dependency. */
  function GetCurrentUserOptional(hasCredentials: bool, userInfo: Option<Claims>): (r: Option<Claims>)
    ensures !hasCredentials ==> r == None
    ensures hasCredentials ==> r == userInfo
  {
    if !hasCredentials then None else userInfo
  }

  /** `'admin' in groups`: list membership for a list, substring search for
      a string, a `TypeError` for anything else. */
  function AdminIn(groups: Json): (r: Result<bool>)
    ensures groups.JList? ==> r == Ok(JStr("admin") in groups.items)
    ensures groups.JStr? ==> r == Ok(Contains(groups.s, "admin"))
    ensures r.Raised? <==> !(groups.JList? || groups.JStr?)
  {
    match groups
    case JList(items) => Ok(JStr("admin") in items)
    case JStr(s) => Ok(Contains(s, "admin"))
    case _ => Raised(TypeError)
  }

  /** `require_admin_user` */
  function RequireAdminUser(currentUser: Claims): (r: Result<Claims>)
    ensures r.Ok? <==> AdminIn(GetOr(currentUser, "cognito_groups", JList([]))) == Ok(true)
    ensures r.Ok? ==> r.value == currentUser
    ensures AdminIn(GetOr(currentUser, "cognito_groups", JList([]))) == Ok(false) ==> r == Raised(AdminRequired)
  {
    match AdminIn(GetOr(currentUser, "cognito_groups", JList([])))
    case Raised(e) => Raised(e)
    case Ok(isAdmin) => if isAdmin then Ok(currentUser) else Raised(AdminRequired)
  }

  /** `require_verified_email` */
  function RequireVerifiedEmail(currentUser: Claims): (r: Result<Claims>)
    ensures r.Ok? <==> JTruthy(GetOr(currentUser, "email_verified", JBool(false)))
    ensures r.Ok? ==> r.value == currentUser
    ensures r.Raised? ==> r.exc == EmailNotVerified
  {
    if JTruthy(GetOr(currentUser, "email_verified", JBool(false))) then Ok(currentUser) else Raised(EmailNotVerified)
  }

  /** Every verified token yields a current user: the user information built
      from a payload is never empty. */
  lemma VerifiedPayloadIsCurrentUser(payload: Claims)
    ensures GetCurrentUser(Some(UserInfoOf(payload))) == Ok(UserInfoOf(payload))
  {
    UserInfoIsNonEmpty(payload);
  }

  /** Through the user information, the admin guard admits exactly the
      tokens whose `cognito:groups` list holds "admin"; a token without
      groups is refused with 403. */
  lemma AdminGuardOnTokens(payload: Claims)
    ensures "cognito:groups" !in payload ==> RequireAdminUser(UserInfoOf(payload)) == Raised(AdminRequired)
    ensures "cognito:groups" in payload && payload["cognito:groups"].JList? ==>
              (RequireAdminUser(UserInfoOf(payload)).Ok? <==> JStr("admin") in payload["cognito:groups"].items)
  {
    var info := UserInfoOf(payload);
    assert info["cognito_groups"] == GetOr(payload, "cognito:groups", JList([]));
  }

  /** A group called "sysadmins" passes the admin guard when the claim is a
      plain string rather than a list, since `in` then searches substrings. */
  lemma SubstringGroupPasses()
    ensures RequireAdminUser(map["cognito_groups" := JStr("sysadmins")]) == Ok(map["cognito_groups" := JStr("sysadmins")])
  {
    var s := "sysadmins";
    assert "admin" <= s[3..];
    assert Contains(s[3..], "admin");
    assert Contains(s[2..], "admin");
    assert Contains(s[1..], "admin");
  }

  /** An access token carrying no `email_verified` claim (Cognito access
      tokens carry none) fails the verified-email guard; one whose claim is
      `true` passes. */
  lemma VerifiedEmailGuardOnTokens(payload: Claims)
    ensures "email_verified" !in payload ==> RequireVerifiedEmail(UserInfoOf(payload)) == Raised(EmailNotVerified)
    ensures "email_verified" in payload && payload["email_verified"] == JBool(true) ==>
              RequireVerifiedEmail(UserInfoOf(payload)).Ok?
  {
    var info := UserInfoOf(payload);
    assert info["email_verified"] == GetOr(payload, "email_verified", JBool(false));
  }
}
