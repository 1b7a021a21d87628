/**
 * The users service: registration, login with a signed bearer token, and the user's profile.
 * The repository is the Repository interface and the token library is golang-jwt; both appear
 * as given answers. The clock readings the service takes are parameters.
 */
module UsersService {
  import opened Wrappers
  import opened Numeric
  import opened Tokens
  import pb = Protos

  /** The key every token is signed with. */
  const SecretKey: string := "secret-key"

  /** models.DbUser. */
  datatype DbUser = DbUser(
    id: Int64,
    name: string,
    surname: string,
    email: string,
    password: string,
    login: string,
    createdAt: pb.Instant,
    updatedAt: pb.Instant)

  datatype RegisterRequest = RegisterRequest(login: string, email: string, password: string)

  datatype GetLoginRequest = GetLoginRequest(login: string, password: string)

  datatype UserUpdateRequest = UserUpdateRequest(name: string, surname: string, email: string)

  /** The Repository interface: the repository's answer to each call. */
  datatype Repository = Repository(
    register: DbUser -> Result<Int64>,
    login: GetLoginRequest -> Option<Error>,
    updateUserInfo: (DbUser, string) -> Option<Error>,
    getUserInfo: string -> Result<DbUser>,
    getUserID: string -> Result<Int64>)

  // ---------------------------------------------------------------------------
  // Registration and profile

  /**
   * The record Register stores: the request's email, login and password, the two clock
   * readings as creation and update time; no id, name or surname yet.
   */
  function NewUser(req: RegisterRequest, createdAt: pb.Instant, updatedAt: pb.Instant): (u: DbUser)
    ensures u.email == req.email && u.login == req.login && u.password == req.password
    ensures u.createdAt == createdAt && u.updatedAt == updatedAt
    ensures u.id == 0 && u.name == "" && u.surname == ""
  {
    DbUser(0, "", "", req.email, req.password, req.login, createdAt, updatedAt)
  }

  /** Register: the id the repository assigns to the new record, or the repository's error. */
  function Register(repo: Repository, req: RegisterRequest, createdAt: pb.Instant, updatedAt: pb.Instant): (r: Result<Int64>)
    ensures r == repo.register(NewUser(req, createdAt, updatedAt))
  {
    match repo.register(NewUser(req, createdAt, updatedAt))
    case Err(e) => Err(e)
    case Ok(id) => Ok(id)
  }

  /**
   * The record UpdateUserInfo hands over: the request's email, name and surname and the clock
   * reading as update time; login, password and creation time are left zero, and the login
   * whose row is updated is passed beside it.
   */
  function ProfileUpdate(req: UserUpdateRequest, updatedAt: pb.Instant): (u: DbUser)
    ensures u.email == req.email && u.name == req.name && u.surname == req.surname
    ensures u.updatedAt == updatedAt
    ensures u.id == 0 && u.login == "" && u.password == "" && u.createdAt == pb.ZeroTime
  {
    DbUser(0, req.name, req.surname, req.email, "", "", pb.ZeroTime, updatedAt)
  }

  /** UpdateUserInfo: the repository's error, unchanged. */
  function UpdateUserInfo(repo: Repository, req: UserUpdateRequest, login: string, updatedAt: pb.Instant): (err: Option<Error>)
    ensures err == repo.updateUserInfo(ProfileUpdate(req, updatedAt), login)
  {
    repo.updateUserInfo(ProfileUpdate(req, updatedAt), login)
  }

  /**
   * GetUserInfo: the stored user as the repository returns it, or a NotFound status carrying
   * the text of the repository's error, whatever that error was.
   */
  function GetUserInfo(repo: Repository, login: string): (r: Result<DbUser>)
    ensures repo.getUserInfo(login).Ok? ==> r == repo.getUserInfo(login)
    ensures repo.getUserInfo(login).Err? ==> r == Err(NotFound(repo.getUserInfo(login).error))
  {
    match repo.getUserInfo(login)
    case Ok(u) => Ok(u)
    case Err(e) => Err(NotFound(e))
  }

  /**
   * A status error does not wrap: errors.Is cannot find the repository's error inside the
   * error GetUserInfo returns, so a caller can only see that the user was not found.
   */
  lemma {:induction false} GetUserInfoHidesCause(repo: Repository, login: string)
    requires repo.getUserInfo(login).Err?
    ensures GetUserInfo(repo, login).Err?
    ensures !Is(GetUserInfo(repo, login).error, repo.getUserInfo(login).error)
  {
    var e := repo.getUserInfo(login).error;
    assert NotFound(e) != e by {
      assert e < NotFound(e);
    }
  }

  // ---------------------------------------------------------------------------
  // Login

  /** The claims of a login token: login and password as strings, the user id as a number; no expiry. */
  function LoginClaims(req: GetLoginRequest, userID: Int64): (m: ClaimSet)
    ensures m.Keys == {"login", "password", "user_id"}
    ensures m["login"] == Text(req.login) && m["password"] == Text(req.password)
    ensures m["user_id"] == Number(userID)
  {
    map["login" := Text(req.login), "password" := Text(req.password), "user_id" := Number(userID)]
  }

  /** What Login asks of its collaborators, in order. */
  datatype LoginCall =
    | CheckCredentials(req: GetLoginRequest)
    | LookUpUserID(login: string)
    | SignToken(alg: Alg, claims: ClaimSet, key: string)

  /** The calls Login made and what it returned. */
  datatype LoginOutcome = LoginOutcome(calls: seq<LoginCall>, result: Result<string>)

  /**
   * Login as written: a failed signature is logged and answered with an empty token and a
   * nil error.
   */
  function LoginAsWritten(repo: Repository, lib: Library, req: GetLoginRequest): (o: LoginOutcome)
    ensures 1 <= |o.calls| <= 3 && o.calls[0] == CheckCredentials(req)
    ensures repo.login(req).Some? ==> o == LoginOutcome([CheckCredentials(req)], Err(repo.login(req).value))
    ensures repo.login(req).None? && repo.getUserID(req.login).Err? ==>
      o == LoginOutcome([CheckCredentials(req), LookUpUserID(req.login)], Err(repo.getUserID(req.login).error))
  {
    match repo.login(req)
    case Some(e) => LoginOutcome([CheckCredentials(req)], Err(e))
    case None =>
      match repo.getUserID(req.login)
      case Err(e) => LoginOutcome([CheckCredentials(req), LookUpUserID(req.login)], Err(e))
      case Ok(userID) =>
        var calls := [CheckCredentials(req), LookUpUserID(req.login), SignToken(HS256, LoginClaims(req, userID), SecretKey)];
        match lib.sign(HS256, LoginClaims(req, userID), SecretKey)
        case Err(_) => LoginOutcome(calls, Ok(""))
        case Ok(token) => LoginOutcome(calls, Ok(token))
  }

  /**
   * With valid credentials and a known user, a signing failure makes the written Login report
   * success with the empty string as the token.
   */
  lemma SignFailureReportsSuccess(repo: Repository, lib: Library, req: GetLoginRequest)
    requires repo.login(req).None? && repo.getUserID(req.login).Ok?
    requires lib.sign(HS256, LoginClaims(req, repo.getUserID(req.login).value), SecretKey).Err?
    ensures LoginAsWritten(repo, lib, req).result == Ok("")
  {
  }

  /** A concrete case: a library that can never sign makes every valid login "succeed" with "". */
  lemma SignFailureExample()
    ensures var repo := Repository(u => Ok(1), r => None, (u, l) => None, l => Err(Message("no user")), l => Ok(7));
      var lib := Library((a, m, k) => Err(Message("signing failed")), t => Malformed, (t, k) => false);
      LoginAsWritten(repo, lib, GetLoginRequest("alice", "pw")).result == Ok("")
  {
  }

  /**
   * Login: the credentials are checked, the user's id looked up, and a token carrying login,
   * password and id signed with HS256 under the secret key; the first failure is returned as
   * the error, including a failure to sign.
   */
  function Login(repo: Repository, lib: Library, req: GetLoginRequest): (o: LoginOutcome)
    ensures 1 <= |o.calls| <= 3 && o.calls[0] == CheckCredentials(req)
    ensures o.result.Ok? ==> |o.calls| == 3 && o.calls[2].SignToken? && o.calls[2].key == SecretKey
    ensures repo.login(req).Some? ==> o == LoginOutcome([CheckCredentials(req)], Err(repo.login(req).value))
    ensures repo.login(req).None? && repo.getUserID(req.login).Err? ==>
      o == LoginOutcome([CheckCredentials(req), LookUpUserID(req.login)], Err(repo.getUserID(req.login).error))
    ensures repo.login(req).None? && repo.getUserID(req.login).Ok? ==>
      var m := LoginClaims(req, repo.getUserID(req.login).value);
      && o.calls == [CheckCredentials(req), LookUpUserID(req.login), SignToken(HS256, m, SecretKey)]
      && o.result == lib.sign(HS256, m, SecretKey)
  {
    match repo.login(req)
    case Some(e) => LoginOutcome([CheckCredentials(req)], Err(e))
    case None =>
      match repo.getUserID(req.login)
      case Err(e) => LoginOutcome([CheckCredentials(req), LookUpUserID(req.login)], Err(e))
      case Ok(userID) =>
        var calls := [CheckCredentials(req), LookUpUserID(req.login), SignToken(HS256, LoginClaims(req, userID), SecretKey)];
        match lib.sign(HS256, LoginClaims(req, userID), SecretKey)
        case Err(e) => LoginOutcome(calls, Err(e))
        case Ok(token) => LoginOutcome(calls, Ok(token))
  }

  /**
   * Login succeeds exactly when the credentials check out, the id is found and the token is
   * signed; the token it returns is then the library's signature of the login claims.
   */
  lemma LoginOkIffSigned(repo: Repository, lib: Library, req: GetLoginRequest)
    ensures Login(repo, lib, req).result.Ok? <==>
      && repo.login(req).None?
      && repo.getUserID(req.login).Ok?
      && lib.sign(HS256, LoginClaims(req, repo.getUserID(req.login).value), SecretKey).Ok?
    ensures Login(repo, lib, req).result.Ok? ==>
      lib.sign(HS256, LoginClaims(req, repo.getUserID(req.login).value), SecretKey) == Login(repo, lib, req).result
  {
  }

  /** Wrong credentials: the repository's error comes back and the user id is never looked up. */
  lemma BadCredentialsStopLogin(repo: Repository, lib: Library, req: GetLoginRequest)
    requires repo.login(req).Some?
    ensures Login(repo, lib, req) == LoginOutcome([CheckCredentials(req)], Err(repo.login(req).value))
    ensures forall i :: 0 <= i < |Login(repo, lib, req).calls| ==> !Login(repo, lib, req).calls[i].LookUpUserID?
  {
  }

  /** The corrected Login differs from the written one only when signing fails, and then only in reporting the error. */
  lemma LoginCorrectionIsConservative(repo: Repository, lib: Library, req: GetLoginRequest)
    ensures Login(repo, lib, req).calls == LoginAsWritten(repo, lib, req).calls
    ensures Login(repo, lib, req).result.Ok? ==> Login(repo, lib, req) == LoginAsWritten(repo, lib, req)
    ensures Login(repo, lib, req).result.Err? && LoginAsWritten(repo, lib, req).result.Ok? ==>
      |Login(repo, lib, req).calls| == 3 && LoginAsWritten(repo, lib, req).result == Ok("")
  {
  }
}
