/** `POST /auth/login`: a bearer token for valid credentials, a uniform 401 otherwise. */
module AuthApi {
  import opened Wrappers
  import opened LeadModel
  import opened Users
  import opened Auth
  import opened Http

  datatype TokenResponse = TokenResponse(accessToken: string, tokenType: string)

  const IncorrectCredentials :=
    HttpError(401, Message("Incorrect email or password"), [("WWW-Authenticate", "Bearer")])

  /**
   * `login`: 401 exactly when authentication fails, else the user's token of type "bearer",
   * issued at the clock reading `issuedAt`.
   */
  function Login(users: UserRepository, email: string, password: string,
                 verifyPassword: (string, string) -> bool, sign: (map<string, string>, Time) -> string,
                 issuedAt: Time)
    : (r: Result<TokenResponse, HttpError>)
    reads users
    requires users.Valid()
    ensures r.Success? <==> exists u | u in users.rows :: u.email == email && verifyPassword(password, u.hashedPassword)
    ensures r.Failure? ==> r.error == IncorrectCredentials
    ensures r.Success? ==> var user := users.GetByEmail(email).value;
                           r.value == TokenResponse(sign(TokenClaims(user), issuedAt), "bearer")
  {
    match AuthenticateUser(users, email, password, verifyPassword)
    case None => Failure(IncorrectCredentials)
    case Some(user) => Success(TokenResponse(CreateTokenForUser(user, issuedAt, sign), "bearer"))
  }

  /**
   * An unknown email and a wrong password get the same answer, so the response does not
   * tell which accounts exist.
   */
  lemma UniformRejection(users: UserRepository, unknown: string, known: User, wrong: string, password: string,
                         verifyPassword: (string, string) -> bool, sign: (map<string, string>, Time) -> string,
                         issuedAt: Time)
    requires users.Valid()
    requires forall u | u in users.rows :: u.email != unknown
    requires known in users.rows && !verifyPassword(wrong, known.hashedPassword)
    ensures Login(users, unknown, password, verifyPassword, sign, issuedAt)
            == Login(users, known.email, wrong, verifyPassword, sign, issuedAt)
  {
    users.EmailsIdentify(known);
  }
}
