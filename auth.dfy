/**
 * The login decision of `POST /api/login`: required fields, lookup of an
 * active account by username, password check, and the reply without the
 * password hash. The hash comparison is a parameter `matches(password, hash)`
 * standing for the hashing library.
 */
module Auth {
  import opened Options
  import opened Seqs

  /** A row of `usuarios`; `passwordHash` is the stored hash. */
  datatype UserAccount = UserAccount(
    id: int,
    username: string,
    passwordHash: string,
    nombreCompleto: string,
    rol: string,
    activo: bool)

  /** The user data a successful login returns: the selected columns without the password. */
  datatype PublicUser = PublicUser(id: int, username: string, nombreCompleto: string, rol: string)

  datatype LoginReply =
    | Failure(status: int, error: string)
    | Success(user: PublicUser, token: string)

  const MissingFieldsError := "Usuario y contrase\U{00F1}a son requeridos"
  const InvalidCredentialsError := "Credenciales inv\U{00E1}lidas"
  const PlaceholderToken := "tu_token_jwt_si_lo_implementas"

  /** JavaScript truthiness of an optional string field of the body. */
  predicate Present(v: Option<string>) {
    v.Some? && v.value != ""
  }

  predicate ActiveWithName(username: string, u: UserAccount) {
    u.username == username && u.activo
  }

  /** `WHERE username = $1 AND activo = TRUE`: the first such row. */
  function LookUp(users: seq<UserAccount>, username: string): (r: Option<UserAccount>)
    ensures r.Some? ==> r.value in users && ActiveWithName(username, r.value)
    ensures r.None? <==> forall u :: u in users ==> !ActiveWithName(username, u)
  {
    Find(users, u => ActiveWithName(username, u))
  }

  /** `const { password: _, ...userData } = user`. */
  function Public(u: UserAccount): (p: PublicUser)
    ensures p.id == u.id && p.username == u.username && p.nombreCompleto == u.nombreCompleto && p.rol == u.rol
  {
    PublicUser(u.id, u.username, u.nombreCompleto, u.rol)
  }

  /** The reply of the login handler for the given body fields. */
  function Login(users: seq<UserAccount>, username: Option<string>, password: Option<string>,
                 matches: (string, string) -> bool): (reply: LoginReply)
    ensures !Present(username) || !Present(password) <==> reply == Failure(400, MissingFieldsError)
    ensures reply.Failure? ==> reply == Failure(400, MissingFieldsError) || reply == Failure(401, InvalidCredentialsError)
    ensures reply.Success? ==> reply.token == PlaceholderToken
    ensures reply.Success? ==> exists u :: (u in users && ActiveWithName(username.value, u)
      && matches(password.value, u.passwordHash) && reply.user == Public(u))
  {
    if !Present(username) || !Present(password) then Failure(400, MissingFieldsError)
    else
      match LookUp(users, username.value)
      case None => Failure(401, InvalidCredentialsError)
      case Some(u) =>
        if !matches(password.value, u.passwordHash) then Failure(401, InvalidCredentialsError)
        else Success(Public(u), PlaceholderToken)
  }

  /** Usernames are unique in `usuarios`. */
  ghost predicate UniqueUsernames(users: seq<UserAccount>) {
    forall i, j :: 0 <= i < j < |users| ==> users[i].username != users[j].username
  }

  /**
   * With unique usernames a login succeeds exactly when the account exists,
   * is active and the password matches its hash; the reply then carries that
   * account's public data.
   */
  lemma LoginSucceedsIffValidCredentials(users: seq<UserAccount>, username: string, password: string,
                                         matches: (string, string) -> bool, u: UserAccount)
    requires UniqueUsernames(users)
    requires username != "" && password != ""
    requires u in users && u.username == username
    ensures Login(users, Some(username), Some(password), matches).Success?
        <==> u.activo && matches(password, u.passwordHash)
    ensures Login(users, Some(username), Some(password), matches).Success? ==>
        Login(users, Some(username), Some(password), matches).user == Public(u)
  {
    var r := LookUp(users, username);
    if r.Some? {
      var i :| 0 <= i < |users| && users[i] == r.value;
      var j :| 0 <= j < |users| && users[j] == u;
      assert users[i].username == users[j].username;
      assert i == j;
    } else {
      assert !ActiveWithName(username, u);
    }
  }

  /**
   * An unknown name, an inactive account and a wrong password get the very
   * same reply, so a caller cannot tell which one happened.
   */
  lemma RejectionDoesNotRevealCause(users: seq<UserAccount>, username: string, password: string,
                                    matches: (string, string) -> bool)
    requires username != "" && password != ""
    requires forall u :: u in users && ActiveWithName(username, u) ==> !matches(password, u.passwordHash)
    ensures Login(users, Some(username), Some(password), matches) == Failure(401, InvalidCredentialsError)
  {
  }
}
