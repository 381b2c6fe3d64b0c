// The admin endpoint for listing users: the caller's role comes from the
// locally signed token and the user table, and only "admin" may list.
// Because the listing itself raises for "admin", the endpoint never answers
// with a list. As written, token verification already raises, since the
// settings hold no signing key; the request is also composed with the
// verification as intended, so that the 401 and 403 answers are stated.

module Admin {
  import opened Common
  import opened Security
  import Settings

  const CouldNotValidate: Exception := HttpException(401, "Could not validate credentials")
  const InvalidToken: Exception := HttpException(401, "Invalid token")
  const UserNotFound: Exception := HttpException(401, "User not found")
  const OnlyAdmins: Exception := HttpException(403, "Only admin users can access this endpoint")
  const AccessDenied: Exception := HttpException(403, "Access denied")

  /** `get_current_user_role`, given what `verify_token` answered. */
  function GetCurrentUserRole(token: Option<map<string, string>>): (r: Result<string>)
    ensures token.None? || token.value == map[] ==> r == Raised(CouldNotValidate)
    ensures token.Some? && token.value != map[] && ("username" !in token.value || token.value["username"] == "") ==>
              r == Raised(InvalidToken)
    ensures r.Ok? <==> token.Some? && "username" in token.value && token.value["username"] != ""
                       && GetUserRole(token.value["username"]).Some? && GetUserRole(token.value["username"]).value != ""
    ensures r.Ok? ==> GetUserRole(token.value["username"]) == Some(r.value)
    ensures r.Raised? ==> r.exc in {CouldNotValidate, InvalidToken, UserNotFound}
  {
    if token.None? || token.value == map[] then Raised(CouldNotValidate)
    else if "username" !in token.value || token.value["username"] == "" then Raised(InvalidToken)
    else
      var role := GetUserRole(token.value["username"]);
      if role.None? || role.value == "" then Raised(UserNotFound) else Ok(role.value)
  }

  /** The body of `get_users`, given what `get_all_users` answered. */
  function Respond(currentUserRole: string, listing: Result<Option<seq<Profile>>>): (r: Result<seq<Profile>>)
    ensures currentUserRole != "admin" ==> r == Raised(OnlyAdmins)
    ensures r.Ok? <==> currentUserRole == "admin" && listing.Ok? && listing.value.Some?
    ensures r.Ok? ==> r.value == listing.value.value
    ensures currentUserRole == "admin" && listing == Ok(None) ==> r == Raised(AccessDenied)
    ensures currentUserRole == "admin" && listing.Raised? ==> r == Raised(listing.exc)
  {
    if currentUserRole != "admin" then Raised(OnlyAdmins)
    else match listing
         case Raised(e) => Raised(e)
         case Ok(users) => if users.None? then Raised(AccessDenied) else Ok(users.value)
  }

  /** `get_users` for a caller with role `currentUserRole`. */
  function GetUsers(currentUserRole: string): (r: Result<seq<Profile>>)
    ensures currentUserRole != "admin" ==> r == Raised(OnlyAdmins)
    ensures currentUserRole == "admin" ==> r == Raised(AttributeError)
  {
    Respond(currentUserRole, GetAllUsers(currentUserRole))
  }

  /** The whole request with `verify_token` as intended (the settings
      object holding a signing key): token verification, the role
      dependency, then the endpoint. Every path raises: a 401 from the
      dependency, a 403 for a non-admin, or the listing's own error for the
      admin. */
  function ListUsersRequest(payload: Option<map<string, string>>): (r: Result<seq<Profile>>)
    ensures r.Raised?
    ensures r.exc in {CouldNotValidate, InvalidToken, UserNotFound, OnlyAdmins, AttributeError}
  {
    match GetCurrentUserRole(VerifyToken(payload))
    case Raised(e) => Raised(e)
    case Ok(role) => GetUsers(role)
  }

  /** The whole request with `verify_token` as written, against a settings
      object with the given attributes: without a signing key or algorithm
      the request fails with `AttributeError` before the role dependency can
      answer 401 or 403; with both it is the request above. */
  function ListUsersRequestAsWritten(attributes: set<string>, payload: Option<map<string, string>>)
    : (r: Result<seq<Profile>>)
    ensures "SECRET_KEY" !in attributes || "ALGORITHM" !in attributes ==> r == Raised(AttributeError)
    ensures "SECRET_KEY" in attributes && "ALGORITHM" in attributes ==> r == ListUsersRequest(payload)
  {
    match VerifyTokenAsWritten(attributes, payload)
    case Raised(e) => Raised(e)
    case Ok(verified) =>
      match GetCurrentUserRole(verified)
      case Raised(e) => Raised(e)
      case Ok(role) => GetUsers(role)
  }

  /** As written, every request that reaches `verify_token` fails with
      `AttributeError` (a 500), even one without a token subject or from a
      non-admin: the 401 and 403 answers are never reached. (`token` is a
      required query parameter, so a request without it is refused with 422
      before verification.) */
  lemma EveryRequestRaisesAsWritten(payload: Option<map<string, string>>)
    ensures ListUsersRequestAsWritten(Settings.DeclaredAttributes, payload) == Raised(AttributeError)
    ensures payload.Some? && payload.value == map["sub" := "user1"] ==>
              ListUsersRequest(payload) == Raised(OnlyAdmins)
  {
    VerifyTokenAlwaysRaises(payload);
    if payload.Some? && payload.value == map["sub" := "user1"] {
      ListingNeverSucceeds(payload);
    }
  }

  /** With `verify_token` as intended, a verified token yields a role
      exactly when its subject is a known user, and the role is that
      user's. */
  lemma RoleFromToken(payload: Option<map<string, string>>)
    ensures var r := GetCurrentUserRole(VerifyToken(payload));
            (r.Ok? <==> payload.Some? && "sub" in payload.value && payload.value["sub"] in Users)
            && (r.Ok? ==> r.value == Users[payload.value["sub"]]["role"])
            && (payload.None? || "sub" !in payload.value ==> r == Raised(CouldNotValidate))
  {
    if payload.Some? && "sub" in payload.value && payload.value["sub"] in Users {
      RoleAndAdminAgree(payload.value["sub"]);
    }
  }

  /** With `verify_token` as intended, no request ever gets the user list:
      a non-admin is refused with 403, and the admin's request fails inside
      the listing. */
  lemma ListingNeverSucceeds(payload: Option<map<string, string>>)
    ensures ListUsersRequest(payload).Raised?
    ensures payload.Some? && "sub" in payload.value && payload.value["sub"] in Users ==>
              ListUsersRequest(payload) == (if IsAdmin(payload.value["sub"]) then Raised(AttributeError) else Raised(OnlyAdmins))
    ensures payload.Some? && payload.value == map["sub" := "admin"] ==> ListUsersRequest(payload) == Raised(AttributeError)
  {
    RoleFromToken(payload);
    if payload.Some? && "sub" in payload.value && payload.value["sub"] in Users {
      RoleAndAdminAgree(payload.value["sub"]);
    }
    if payload.Some? && payload.value == map["sub" := "admin"] {
      ExactlyOneAdmin("admin");
    }
  }
}
