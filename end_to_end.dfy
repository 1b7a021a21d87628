/**
 * Properties that span services: a token the users service issues is accepted by the
 * gateway, and what a client sends through the gateway is what the backends store and
 * return.
 */
module EndToEnd {
  import opened Wrappers
  import opened Numeric
  import opened Tokens
  import opened Middleware
  import opened Converters
  import Users = UsersService
  import Posts = PostsService
  import pb = Protos

  /**
   * The claims of a login token decode into the gateway's Claims with the same login, password
   * and user id, and, having no "exp" or "nbf", are valid at every clock reading.
   */
  lemma LoginClaimsDecode(req: Users.GetLoginRequest, userID: Int64, now: int)
    ensures DecodeClaims(Users.LoginClaims(req, userID)) == Ok(Claims(req.login, req.password, userID))
    ensures TimeValid(Users.LoginClaims(req, userID), now)
  {
    var m := Users.LoginClaims(req, userID);
    assert DecodeString(m, "login") == Ok(req.login);
    assert DecodeString(m, "password") == Ok(req.password);
    assert DecodeInt(m, "user_id") == Ok(userID);
    assert "exp" !in m && "nbf" !in m;
  }

  /**
   * A token issued by Login, presented in the Authorization header, passes the gateway's
   * verification at any time and yields the login, password and user id it was issued for:
   * both sides use the same key and an HMAC algorithm.
   */
  lemma IssuedTokenVerifies(repo: Users.Repository, lib: Library, req: Users.GetLoginRequest, header: Header, now: int)
    requires Coherent(lib)
    requires Users.Login(repo, lib, req).result.Ok?
    requires Get(header, AuthorizationKey) == Users.Login(repo, lib, req).result.value
    ensures repo.getUserID(req.login).Ok?
    ensures VerifyToken(header, lib, now) == Ok(Claims(req.login, req.password, repo.getUserID(req.login).value))
  {
    Users.LoginOkIffSigned(repo, lib, req);
    var userID := repo.getUserID(req.login).value;
    var m := Users.LoginClaims(req, userID);
    var token := Users.Login(repo, lib, req).result.value;
    assert lib.sign(HS256, m, Users.SecretKey) == Ok(token);
    assert token != "" && lib.parse(token) == Decoded(HS256, m) && lib.signatureValid(token, Users.SecretKey);
    assert Users.SecretKey == JwtKey;
    LoginClaimsDecode(req, userID, now);
  }

  /**
   * An authenticated route reached with a token from Login: the endpoint runs once and sees
   * the caller's login, password and user id in its identity headers, and the user id header
   * reads back as the id the users service looked up.
   */
  lemma IssuedTokenReachesEndpoint(repo: Users.Repository, lib: Library, req: Users.GetLoginRequest,
                                   endpoint: string, env: Env, r: HttpRequest)
    requires Coherent(env.jwt) && lib == env.jwt
    requires Users.Login(repo, lib, req).result.Ok?
    requires Get(r.header, AuthorizationKey) == Users.Login(repo, lib, req).result.value
    ensures repo.getUserID(req.login).Ok?
    ensures var t := Run(AuthMiddleware(Endpoint(endpoint)), env, r).trace;
      && Delegations(t) == 1
      && HasIdentity(Received(t)[0].header, Claims(req.login, req.password, repo.getUserID(req.login).value))
      && Atoi(Get(Received(t)[0].header, UserIDKey)) == Ok(repo.getUserID(req.login).value)
  {
    IssuedTokenVerifies(repo, lib, req, r.header, env.now);
    var c := Claims(req.login, req.password, repo.getUserID(req.login).value);
    AuthDelegates(Endpoint(endpoint), env, r);
    var r' := r.(header := IdentityHeaders(r.header, c));
    CountsOfOne(Delegated(endpoint, r'));
  }

  /**
   * A post created through the gateway and read back under the id the repository gave it:
   * the client sees the name, description, tags, flag and both instants it stored, the id
   * it was given, and no owner.
   */
  lemma CreatedPostRoundTrip(repo: Posts.PostsRepository, m: CreatePostRequest, userID: Int32,
                             createdAt: pb.Instant, updatedAt: pb.Instant, id: Int32)
    requires repo.getPost(id, userID) == Ok(Posts.NewPost(CreatePostToProto(m), userID, createdAt, updatedAt).(id := id))
    ensures var r := Posts.GetPost(repo, PostIDToProto(PostID(id)), userID);
      && r.Ok?
      && FromProtoPostResponse(r.value)
         == GetPostResponse(id, m.postName, m.postDescription, m.securityFlag, createdAt, updatedAt, m.tags, 0)
  {
    Posts.CreatedPostReadsBack(repo, CreatePostToProto(m), userID, createdAt, updatedAt, id);
  }

  /**
   * A gateway post id reaches the posts repository unchanged when it fits in an int32, and
   * as a different id, congruent to it modulo 2^32, when it does not.
   */
  lemma PostIDReachesRepository(repo: Posts.PostsRepository, m: PostID, userID: Int32)
    ensures InInt32(m.postID) ==> Posts.DeletePost(repo, PostIDToProto(m), userID) == repo.deletePost(m.postID, userID)
    ensures !InInt32(m.postID) ==> PostIDToProto(m).postId != m.postID
    ensures (PostIDToProto(m).postId - m.postID) % TwoTo32 == 0
  {
  }
}
