/**
 * `AuthService`: credential check and token claims. Password hashing and token signing
 * are not part of this model: `verifyPassword(password, hash)` and `sign(claims, issuedAt)` are
 * parameters. Both operations only read the user table.
 */
module Auth {
  import opened Wrappers
  import opened Uuids
  import opened LeadModel
  import opened Users

  /** `authenticate_user`: the user with that email, provided the password verifies against its hash. */
  function AuthenticateUser(users: UserRepository, email: string, password: string,
                            verifyPassword: (string, string) -> bool): (r: Option<User>)
    reads users
    requires users.Valid()
    ensures r.Some? ==> r.value in users.rows && r.value.email == email
                        && verifyPassword(password, r.value.hashedPassword)
    ensures r.None? <==> forall u | u in users.rows && u.email == email :: !verifyPassword(password, u.hashedPassword)
  {
    var found := users.GetByEmail(email);
    if found.None? then None
    else if !verifyPassword(password, found.value.hashedPassword) then
      assert forall u | u in users.rows && u.email == email :: u == found.value by {
        forall u | u in users.rows && u.email == email
          ensures u == found.value
        {
          users.EmailsIdentify(u);
        }
      }
      None
    else found
  }

  /** An email nobody has is refused whatever the password. */
  lemma UnknownEmailRefused(users: UserRepository, email: string, password: string,
                            verifyPassword: (string, string) -> bool)
    requires users.Valid() && users.GetByEmail(email).None?
    ensures AuthenticateUser(users, email, password, verifyPassword).None?
  {
  }

  /** The payload of the access token: the user's id as text under "sub", and the email. */
  function TokenClaims(user: User): (claims: map<string, string>)
    ensures claims.Keys == {"sub", "email"}
    ensures claims["sub"] == Text(user.id) && claims["email"] == user.email
  {
    map["sub" := Text(user.id), "email" := user.email]
  }

  /** The claims name the user: distinct users get distinct claims. */
  lemma ClaimsIdentifyUser(a: User, b: User)
    ensures TokenClaims(a) == TokenClaims(b) ==> a.id == b.id
  {
    if TokenClaims(a) == TokenClaims(b) {
      assert TokenClaims(a)["sub"] == TokenClaims(b)["sub"];
      TextInjective(a.id, b.id);
    }
  }

  /**
   * `create_token_for_user`: the token is the signature of a payload that holds exactly
   * the user's id text under "sub" and the user's email under "email". `sign` is
   * `create_access_token`, which also stamps the expiry from the clock reading `issuedAt`.
   */
  function CreateTokenForUser(user: User, issuedAt: Time, sign: (map<string, string>, Time) -> string)
    : (token: string)
    ensures exists claims: map<string, string> ::
              && claims.Keys == {"sub", "email"} && claims["sub"] == Text(user.id) && claims["email"] == user.email
              && token == sign(claims, issuedAt)
  {
    var claims := TokenClaims(user);
    assert claims.Keys == {"sub", "email"} && claims["sub"] == Text(user.id) && claims["email"] == user.email;
    sign(claims, issuedAt)
  }

  /**
   * Tokens issued at the same instant depend on the user's id and email only, and when
   * signing keeps the payload recoverable, users with different ids get different tokens
   * whenever they are issued.
   */
  lemma TokensIdentifyUser(a: User, b: User, t: Time, t': Time, sign: (map<string, string>, Time) -> string)
    ensures a.id == b.id && a.email == b.email ==> CreateTokenForUser(a, t, sign) == CreateTokenForUser(b, t, sign)
    ensures (forall c, d, u, v :: sign(c, u) == sign(d, v) ==> c == d) && a.id != b.id ==>
              CreateTokenForUser(a, t, sign) != CreateTokenForUser(b, t', sign)
  {
    if (forall c, d, u, v :: sign(c, u) == sign(d, v) ==> c == d) && a.id != b.id {
      ClaimsIdentifyUser(a, b);
    }
  }
}
