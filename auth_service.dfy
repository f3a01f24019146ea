/**
 * Credential check and login. The stored password hash is compared with the
 * supplied password by `compare` (bcrypt.compare) and the token is produced
 * by `sign` (JwtService.sign); both are parameters, since neither is
 * specified beyond being a function of its arguments. Emails are looked up
 * under the users table's collation `collate`.
 */
module AuthService {
  import opened Wrappers
  import opened Exceptions
  import opened UserService

  datatype LoginDto = LoginDto(email: string, senha: string)

  /** The JWT claims: the user's email, id (as sub) and role. */
  datatype TokenPayload = TokenPayload(email: string, sub: int, role: Role)

  datatype LoginResponse = LoginResponse(user: UserView, accessToken: string)

  /** Some stored user's email matches this one and the password checks against its hash. */
  predicate CredentialsMatch(
    rows: map<int, User>, email: string, senha: string,
    compare: (string, string) -> bool, collate: string -> string)
  {
    exists id | id in rows :: collate(rows[id].email) == collate(email) && compare(senha, rows[id].senha)
  }

  /**
   * validateUser: the stored user (hash included, as toJSON keeps it) when
   * the email is known and the password checks; None otherwise. A missing
   * email surfaces from findByEmail as NotFound and is swallowed into None,
   * exactly like a failed comparison.
   */
  function ValidateUser(
    rows: map<int, User>, email: string, senha: string,
    compare: (string, string) -> bool, collate: string -> string)
    : (r: Option<User>)
    requires UniqueEmails(rows, collate)
    ensures r.Some? <==> CredentialsMatch(rows, email, senha, compare, collate)
    ensures !EmailTaken(rows, email, collate) ==> r.None?
    ensures r.Some? ==>
              && r.value in rows.Values
              && collate(r.value.email) == collate(email)
              && compare(senha, r.value.senha)
  {
    match FindByEmail(rows, email, collate)
    case Err(_) => None
    case Ok(user) => if compare(senha, user.senha) then Some(user) else None
  }

  /** The claims signed into the access token for a validated user. */
  function Payload(u: User): TokenPayload {
    TokenPayload(u.email, u.id, u.role)
  }

  /**
   * login: Unauthorized exactly when the credentials do not match; otherwise
   * the validated user without its password and the token signed over its
   * stored email, id and role.
   */
  function Login(
    rows: map<int, User>, dto: LoginDto,
    compare: (string, string) -> bool, sign: TokenPayload -> string, collate: string -> string)
    : (r: Result<LoginResponse, Exception>)
    requires UniqueEmails(rows, collate)
    ensures r.Err? <==> !CredentialsMatch(rows, dto.email, dto.senha, compare, collate)
    ensures r.Err? ==> r.error == Unauthorized(InvalidCredentials)
    ensures r.Ok? ==>
              exists id | id in rows ::
                && collate(rows[id].email) == collate(dto.email)
                && compare(dto.senha, rows[id].senha)
                && r.value.user == View(rows[id])
                && r.value.accessToken == sign(TokenPayload(rows[id].email, rows[id].id, rows[id].role))
  {
    match ValidateUser(rows, dto.email, dto.senha, compare, collate)
    case None => Err(Unauthorized(InvalidCredentials))
    case Some(user) => Ok(LoginResponse(View(user), sign(Payload(user))))
  }

  /**
   * An unknown email and a known email with a wrong password produce the same
   * response, so a failed login does not reveal whether the account exists.
   */
  lemma LoginFailuresIndistinguishable(
    rows: map<int, User>, unknown: LoginDto, wrong: LoginDto,
    compare: (string, string) -> bool, sign: TokenPayload -> string, collate: string -> string)
    requires UniqueEmails(rows, collate)
    requires !EmailTaken(rows, unknown.email, collate)
    requires EmailTaken(rows, wrong.email, collate)
    requires forall id | id in rows && collate(rows[id].email) == collate(wrong.email) :: !compare(wrong.senha, rows[id].senha)
    ensures Login(rows, unknown, compare, sign, collate) == Login(rows, wrong, compare, sign, collate)
                                                     == Err(Unauthorized(InvalidCredentials))
  {
  }
}
