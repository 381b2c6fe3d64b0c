// The built-in user table with role-based access: authentication by
// username and password, look-ups that never hand out the password, and the
// admin-only listing of all users.

module Security {
  import opened Common
  import Settings

  /** A user's record: username, password, role, email. */
  type Profile = map<string, string>

  function UserRecord(username: string, password: string, role: string, email: string): Profile
  {
    map["username" := username, "password" := password, "role" := role, "email" := email]
  }

  /** `USERS` */
  const Users: map<string, Profile> :=
    map["admin" := UserRecord("admin", "admin123", "admin", "admin@example.com"),
        "user1" := UserRecord("user1", "user123", "user", "user1@example.com"),
        "user2" := UserRecord("user2", "user456", "user", "user2@example.com"),
        "moderator" := UserRecord("moderator", "mod123", "moderator", "moderator@example.com")]

  /** A copy of the record with its password popped. */
  function WithoutPassword(p: Profile): (r: Profile)
    ensures "password" !in r
    ensures forall k :: k in p && k != "password" ==> k in r && r[k] == p[k]
    ensures r.Keys == p.Keys - {"password"}
  {
    p - {"password"}
  }

  /** `authenticate_user` */
  function AuthenticateUser(username: string, password: string): (r: Option<Profile>)
    ensures r.Some? <==> username in Users && Users[username]["password"] == password
    ensures r.Some? ==> r.value == WithoutPassword(Users[username]) && "password" !in r.value
  {
    if username in Users && Users[username]["password"] == password then Some(WithoutPassword(Users[username]))
    else None
  }

  /** `get_user_by_username` */
  function GetUserByUsername(username: string): (r: Option<Profile>)
    ensures r.Some? <==> username in Users
    ensures r.Some? ==> r.value == WithoutPassword(Users[username]) && "password" !in r.value
  {
    if username in Users then Some(WithoutPassword(Users[username])) else None
  }

  /** `get_all_users`: `None` for anyone but "admin". For "admin" the loop
      takes `USERS.items()`, whose elements are (name, record) tuples, and
      calls `.copy()` on the first of them, which raises `AttributeError`. */
  function GetAllUsers(requesterRole: string): (r: Result<Option<seq<Profile>>>)
    ensures requesterRole != "admin" <==> r == Ok(None)
    ensures requesterRole == "admin" <==> r == Raised(AttributeError)
  {
    if requesterRole != "admin" then Ok(None)
    else if |Users| == 0 then Ok(Some([]))
    else Raised(AttributeError)
  }

  /** `is_admin` */
  function IsAdmin(username: string): (r: bool)
    ensures r <==> username in Users && Users[username]["role"] == "admin"
  {
    if username in Users then Users[username]["role"] == "admin" else false
  }

  /** `get_user_role` */
  function GetUserRole(username: string): (r: Option<string>)
    ensures r.Some? <==> username in Users
    ensures r.Some? ==> r.value == Users[username]["role"]
  {
    if username in Users then Some(Users[username]["role"]) else None
  }

  /** `is_admin` and `get_user_role` agree, and every listed user has a
      non-empty role. */
  lemma RoleAndAdminAgree(username: string)
    ensures IsAdmin(username) <==> GetUserRole(username) == Some("admin")
    ensures GetUserRole(username).Some? ==> GetUserRole(username).value != ""
  {
  }

  /** The table has exactly one admin, the user "admin". */
  lemma ExactlyOneAdmin(username: string)
    ensures IsAdmin(username) <==> username == "admin"
  {
    if username in Users && username != "admin" {
      assert Users[username]["role"] in {"user", "moderator"};
      assert "user"[0] != "admin"[0] && "moderator"[0] != "admin"[0];
    }
  }

  /** A successful login returns what the look-up by name returns. */
  lemma LoginMatchesLookup(username: string, password: string)
    ensures AuthenticateUser(username, password).Some? ==>
              AuthenticateUser(username, password) == GetUserByUsername(username)
    ensures GetUserByUsername(username).Some? <==> GetUserRole(username).Some?
  {
  }

  /** The four built-in logins succeed with their passwords, and the admin
      login refuses another user's password. */
  lemma BuiltInLogins()
    ensures AuthenticateUser("admin", "admin123").Some?
    ensures AuthenticateUser("user1", "user123").Some?
    ensures AuthenticateUser("user2", "user456").Some?
    ensures AuthenticateUser("moderator", "mod123").Some?
    ensures AuthenticateUser("admin", "user123").None?
  {
    assert "user123"[0] != "admin123"[0];
  }

  /** `verify_token`, given what `jwt.decode` answers (`None` for a
      `JWTError`): the token's subject as its username. Encoding and
      signature checking are the library's. */
  function VerifyToken(payload: Option<map<string, string>>): (r: Option<map<string, string>>)
    ensures r.Some? <==> payload.Some? && "sub" in payload.value
    ensures r.Some? ==> r.value == map["username" := payload.value["sub"]]
  {
    if payload.None? || "sub" !in payload.value then None
    else Some(map["username" := payload.value["sub"]])
  }

  /** `verify_token` as written, reading the signing key and algorithm from a
      settings object with the given attributes: a missing attribute raises
      `AttributeError`, which the `except JWTError` does not catch; with both
      present the decoder's payload is read as `VerifyToken` reads it. */
  function VerifyTokenAsWritten(attributes: set<string>, payload: Option<map<string, string>>)
    : (r: Result<Option<map<string, string>>>)
    ensures r.Raised? <==> "SECRET_KEY" !in attributes || "ALGORITHM" !in attributes
    ensures r.Raised? ==> r.exc == AttributeError
    ensures r.Ok? ==> r.value == VerifyToken(payload)
  {
    if "SECRET_KEY" !in attributes || "ALGORITHM" !in attributes then Raised(AttributeError)
    else Ok(VerifyToken(payload))
  }

  /** The settings object declares neither the signing key nor the
      algorithm, so every token verification raises. */
  lemma VerifyTokenAlwaysRaises(payload: Option<map<string, string>>)
    ensures "SECRET_KEY" !in Settings.DeclaredAttributes && "ALGORITHM" !in Settings.DeclaredAttributes
    ensures VerifyTokenAsWritten(Settings.DeclaredAttributes, payload) == Raised(AttributeError)
  {
  }
}
