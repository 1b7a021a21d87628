# soa-hse: gateway, services and transactor, modelled in Dafny

The platform is a small social network split into four Go services:

- an **API gateway** that checks bearer tokens, guards routes by HTTP method, logs requests,
  and reverse-proxies the users service;
- a **users service** that registers users, logs them in with a signed JWT and keeps their
  profile;
- a **posts service** that stores posts, comments, likes and views;
- a **statistic service** that counts events and ranks posts and users, running every query
  inside a database transaction.

This project models the core of each service and proves properties of it.

| module (file) | models |
|---|---|
| `Wrappers` (wrappers.dfy) | Go errors: `errors.Join`, `errors.Is`, nil-able values, `(value, error)` pairs |
| `Numeric` (numeric.dfy) | `int32(x)` narrowing; `strconv.Itoa` and `strconv.Atoi` |
| `Tokens` (tokens.dfy) | JWT claim sets; the golang-jwt library as signing, parsing and signature-check answers; JSON decoding of the gateway's `Claims` |
| `Middleware` (middleware.dfy) | the gateway middleware: `JWTVerify`, `AuthMiddleware`, `MethodMiddleware`, `ProxyMiddleware` (its Director and ErrorHandler), `LoggerMiddleware` |
| `Protos` (protos.dfy) | the protocol-buffer messages exchanged with the backends |
| `Converters` (converters.dfy) | the gateway's conversions between its JSON bodies and those messages |
| `Txs` (transactor.dfy) | the statistic service's transactor: the context key, `GetQuerier`, and `WithTransaction`/`WithTransactionWithValue` over `*sql.DB`/`*sql.Tx` |
| `StatisticRepository` (statistic_repository.dfy) | the statistic repository: querier choice, the top-ten whitelist, the `rows.Next` scan loops |
| `StatisticService` (statistic_service.dfy) | the statistic handlers: one transaction per call, answers narrowed to int32 |
| `PostsService` (posts_service.dfy) | the posts handlers: records built from requests, records mapped to responses |
| `UsersService` (users_service.dfy) | the users handlers: registration, login and token issue, profile |
| `EndToEnd` (end_to_end.dfy) | properties that span services |

Each kind of code keeps its own form:

- **Middleware chains** are a `Handler` datatype. The pure function `Run` gives the trace of
  observable events: log lines, status codes written, the endpoint called, the request sent
  upstream. The imperative `ServeHTTP` updates a `Request` object in place and appends to a
  `ResponseWriter`, and is proved to do what `Run` says.
- **The transactor** is written two ways:
  - on objects: `Database`, `Tx`, and `TxBeginner` with its deferred closure spelled out;
  - as a pure function `RunWithValue` over the driver's answers, which the statistic service
    uses.
- **Loops that fill slices** are methods that fill arrays, with element-wise postconditions.
  These are the gateway's list converters, the service handlers' response lists, and the
  repository's `rows.Next`.
- **Collaborators are given answers.** Repositories, the SQL database, the JWT library and the
  clock are not code the model can see, so each appears as fixed answers to its calls.

## Model

| member | source | states |
|---|---|---|
| Wrappers.Join2 | statistic_service/internal/infrastructure/repository/txs/transactor.go:68-73 | errors.Join of two errors is nil exactly when both are nil, and errors.Is finds each non-nil argument in the result |
| Numeric.ToInt32 | posts_service/internal/service/postsservice/service.go:86 | int32(x) is x for x in int32's range, and otherwise differs from x by a multiple of 2^32 |
| Numeric.ItoaRoundTrip | api_gateway_service/internal/middleware/middleware.go:47 | strconv.Atoi reads back every int that strconv.Itoa wrote |
| Numeric.ItoaInjective | api_gateway_service/internal/middleware/middleware.go:47 | different user ids give different UserID header values |
| Tokens.DecodeString | api_gateway_service/internal/middleware/middleware.go:14-19 | a string claim decodes to its text; an absent or null claim leaves ""; any other JSON value is an error |
| Tokens.DecodeInt | api_gateway_service/internal/middleware/middleware.go:14-19 | a number within int's range decodes to its value; an absent or null claim leaves 0; any other JSON value, an out-of-range number included, is an error |
| Tokens.DecodeClaims | api_gateway_service/internal/middleware/middleware.go:30-31 | decoded claims carry the login, password and user_id fields of the claim set; a failure carries the error of a field that does not decode, taken in struct order (encoding/json reports the first in document order, and VerifyToken replaces either with "token is invalid") |
| Tokens.NullTimeClaimIsAbsent | api_gateway_service/internal/middleware/middleware.go:14-19 | a null "exp" or "nbf" is validated as if the claim were absent, as a nil *jwt.NumericDate is |
| Middleware.CapitalisedIsCanonical | api_gateway_service/internal/middleware/middleware.go:45-46 | "Login", "Password" and "Authorization" are their own canonical header keys |
| Middleware.LettersCanonical | api_gateway_service/internal/middleware/middleware.go:47 | an all-letter key canonicalises to its capitalised form, so "UserID" and "userid" share one header slot |
| Middleware.IdentityKeys | api_gateway_service/internal/middleware/middleware.go:45-47 | the canonical keys of the headers the gateway reads and writes |
| Middleware.VerifyToken | api_gateway_service/internal/middleware/middleware.go:23-43 | an empty Authorization header is "token is empty" and every other failure is "token is invalid"; a token is accepted exactly when it is HMAC-signed, its signature checks under the gateway key, its time claims hold and its claims decode, and the result is the decoded claims |
| Middleware.JWTVerify | api_gateway_service/internal/middleware/middleware.go:23-50 | a rejected request is left untouched; an accepted one has its Login, Password and UserID headers set from the token, and nothing else changes |
| Middleware.Director | api_gateway_service/internal/middleware/middleware.go:87-91 | the outgoing request gets scheme "http" and targetHost+targetPort as URL host and Host; nothing else changes |
| Middleware.ServeHTTP | api_gateway_service/internal/middleware/middleware.go:52-114 | serving through a middleware chain writes the trace `Run` gives and leaves the request as `Run` gives it |
| Middleware.ServeAuthenticated | api_gateway_service/internal/middleware/middleware.go:52-63 | the handler AuthMiddleware returns writes the trace `Run` gives: 401 alone, or the wrapped handler's trace on the request with identity headers |
| Middleware.ServeLogged | api_gateway_service/internal/middleware/middleware.go:104-114 | the handler LoggerMiddleware returns writes the trace `Run` gives: the two log lines around the wrapped handler's trace |
| Middleware.ServeProxied | api_gateway_service/internal/middleware/middleware.go:75-102 | the handler ProxyMiddleware returns writes the trace `Run` gives, and the caller's request object is left as it was |
| Middleware.ExactlyOneOutcome | api_gateway_service/internal/middleware/middleware.go:52-114 | every request through any chain ends in exactly one status written or one endpoint call, never both and never neither |
| Middleware.MethodMismatchRejects | api_gateway_service/internal/middleware/middleware.go:65-70 | another method gets 405, and the wrapped handler never runs |
| Middleware.MethodMatchDelegates | api_gateway_service/internal/middleware/middleware.go:65-73 | the configured method is passed to the wrapped handler unchanged |
| Middleware.AuthRejects | api_gateway_service/internal/middleware/middleware.go:52-59 | a failed verification gets 401, and the wrapped handler never runs |
| Middleware.AuthDelegates | api_gateway_service/internal/middleware/middleware.go:45-61 | a verified request reaches the wrapped handler carrying the token's identity; its UserID header reads back as the token's user id, whatever the client sent under "userid" |
| Middleware.LoggerBrackets | api_gateway_service/internal/middleware/middleware.go:104-114 | "request started" comes first and "request finished" last, around the whole inner trace, however the inner handler ends |
| Middleware.ProxyForwards | api_gateway_service/internal/middleware/middleware.go:75-102 | the wrapped handler never runs; the Director turns the request into one with scheme http and host targetHost+targetPort, keeping method, path and headers; an unreachable upstream gets 502, otherwise the upstream's status is relayed; the caller's request is unchanged |
| Middleware.IdentityHeadersAreSets | api_gateway_service/internal/middleware/middleware.go:45-47 | the three Header.Set calls store the login, password and user id under "Login", "Password" and "Userid" |
| Middleware.HasIdentityByGet | api_gateway_service/internal/middleware/middleware.go:45-47 | a request carries an identity exactly when Header.Get under "Login", "Password" and "UserID" reads it back |
| Middleware.UserIDKeys | api_gateway_service/internal/middleware/middleware.go:47 | "UserID" and "userid" are the same header, "Userid" |
| Middleware.UserIDReadsBack | api_gateway_service/internal/middleware/middleware.go:45-47 | after JWTVerify, the user id header read under either spelling is the token's user id, and strconv.Atoi gives the id back |
| Middleware.IdentityHeadersFrame | api_gateway_service/internal/middleware/middleware.go:45-47 | setting the identity headers changes no other header, the Authorization header included |
| Middleware.OnlyIdentityHeadersChange | api_gateway_service/internal/middleware/middleware.go:23-114 | an endpoint receives the client's method, path and headers, except the three identity headers |
| Middleware.IdentityReachesEndpoint | api_gateway_service/internal/middleware/middleware.go:52-63 | once a request carries its own token's identity, every endpoint reached from there on sees that identity |
| Middleware.AuthenticatedEndpointsSeeIdentity | api_gateway_service/internal/middleware/middleware.go:52-63 | an endpoint behind AuthMiddleware runs only for a verified token, and sees that token's identity |
| Middleware.ProtectedRoute | api_gateway_service/internal/middleware/middleware.go:52-114 | on a logged, method-guarded, authenticated route: a wrong method gets 405; a bad token gets 401; the endpoint runs once exactly when both checks pass |
| Converters.CreatePostToProto | api_gateway_service/internal/infrastructure/models/converters.go:7-14 | name, description, tags and security flag are carried over unchanged |
| Converters.PostIDToProto | api_gateway_service/internal/infrastructure/models/converters.go:16-20 | the id is narrowed to int32: kept when it fits, otherwise wrapped modulo 2^32 (ToStatisticProto at 85-89 builds the same message) |
| Converters.UpdatePostToProto | api_gateway_service/internal/infrastructure/models/converters.go:22-32 | the id is narrowed like a post id; the post data is what CreatePostToProto makes of the same fields |
| Converters.PostCommentToProto | api_gateway_service/internal/infrastructure/models/converters.go:58-63 | the post id is narrowed like a post id; the description is carried over |
| Converters.TopParameterToProto | api_gateway_service/internal/infrastructure/models/converters.go:105-109 | the parameter is carried over unchanged |
| Converters.FromProtoPostResponse | api_gateway_service/internal/infrastructure/models/converters.go:34-45 | every field is carried over, ids widened |
| Converters.FromProtoListPostResponse | api_gateway_service/internal/infrastructure/models/converters.go:47-56 | a list of the same length whose element i is post i converted |
| Converters.FromProtoPostCommentResponse | api_gateway_service/internal/infrastructure/models/converters.go:65-72 | the comment, post and user ids and the description are carried over |
| Converters.FromProtoListCommentResponse | api_gateway_service/internal/infrastructure/models/converters.go:74-83 | a list of the same length whose element i is comment i converted |
| Converters.FromProtoDynamicListResponse | api_gateway_service/internal/infrastructure/models/converters.go:91-103 | same length and order; each day's count and date are carried over |
| Converters.FromProtoTopTenPostsResponse | api_gateway_service/internal/infrastructure/models/converters.go:111-121 | the post ids, in the same order |
| Converters.FromProtoTopTenUsersResponse | api_gateway_service/internal/infrastructure/models/converters.go:123-133 | the user ids, in the same order |
| Converters.FromProtoCountResponse | api_gateway_service/internal/infrastructure/models/converters.go:135-139 | the count, unchanged |
| Converters.PostIDRoundTrip | api_gateway_service/internal/infrastructure/models/converters.go:16-45 | a post id sent to the posts service and read back is the same id exactly when it fits in an int32 |
| Converters.PostIDWraps | api_gateway_service/internal/infrastructure/models/converters.go:16-20 | an id in [2^31, 2^32) reaches the backend as a negative id 2^32 below it, and one in [2^32, 2^32+2^31) as the id 2^32 below it |
| Converters.PostIDToProtoInjective | api_gateway_service/internal/infrastructure/models/converters.go:16-20 | different ids in int32's range stay different on the wire |
| Txs.Value | statistic_service/internal/infrastructure/repository/txs/transactor.go:23 | the outermost pair answers for its own key and defers to its parent for every other key, so the innermost pair with the key wins; the background context has none |
| Txs.InjectTx | statistic_service/internal/infrastructure/repository/txs/transactor.go:18-20 | the new context holds the transaction under txKey and agrees with the old one on every other key |
| Txs.GetQuerier | statistic_service/internal/infrastructure/repository/txs/transactor.go:22-28 | the transaction stored in the context when there is one, otherwise the default querier |
| Txs.QuerierOfInjected | statistic_service/internal/infrastructure/repository/txs/transactor.go:18-28 | GetQuerier finds an injected transaction, whatever the context it was injected into |
| Txs.QuerierWithoutTx | statistic_service/internal/infrastructure/repository/txs/transactor.go:22-28 | without an injected transaction, repository code uses the default querier |
| Txs.RunWithValue | statistic_service/internal/infrastructure/repository/txs/transactor.go:61-82 | the driver is asked for nothing, for begin then commit, or for begin then rollback |
| Txs.BeginFailure | statistic_service/internal/infrastructure/repository/txs/transactor.go:62-66 | a failed BeginTx is returned as it is; the callback never runs |
| Txs.CallbackFailure | statistic_service/internal/infrastructure/repository/txs/transactor.go:68-79 | a failed callback gives no value and an error that errors.Is finds both the callback's and the rollback's errors in; one rollback and no commit follow |
| Txs.CommitSuccess | statistic_service/internal/infrastructure/repository/txs/transactor.go:75-81 | a successful callback and commit return the value, no error, and no rollback |
| Txs.CommitFailure | statistic_service/internal/infrastructure/repository/txs/transactor.go:68-81 | a failed commit still returns the value, with an error that is both the commit's error and sql.ErrTxDone from the deferred rollback; the driver sees no rollback |
| Txs.NilErrorIffCommitted | statistic_service/internal/infrastructure/repository/txs/transactor.go:61-82 | no error comes back exactly when begin, callback and commit all succeed, and a value comes with it |
| Txs.Database.BeginTx | statistic_service/internal/infrastructure/repository/txs/transactor.go:62 | a fresh open transaction is logged as begun, or the driver's error and no transaction |
| Txs.Tx.Commit | statistic_service/internal/infrastructure/repository/txs/transactor.go:81 | the transaction becomes done; a second Commit or Rollback gets ErrTxDone and never reaches the driver |
| Txs.Tx.Rollback | statistic_service/internal/infrastructure/repository/txs/transactor.go:71 | the transaction becomes done; a rollback of a done transaction gets ErrTxDone and never reaches the driver |
| Txs.TxBeginner.WithTransactionWithValue | statistic_service/internal/infrastructure/repository/txs/transactor.go:61-82 | the value, the error and the driver requests are those of RunWithValue |
| Txs.TxBeginner.WithTransaction | statistic_service/internal/infrastructure/repository/txs/transactor.go:38-59 | the error and the driver requests are those of RunWithValue for a callback that returns no value |
| StatisticRepository.ParseTable | statistic_service/internal/infrastructure/repository/repository.go:159-170 | a parameter is accepted exactly when it is "likes", "comments" or "views", and the query names that table |
| StatisticRepository.ColumnInt | statistic_service/internal/infrastructure/repository/repository.go:26 | a column converts to a Go int when it is an integer in int's range, or text that strconv.ParseInt reads in base 10; NULL and dates are errors |
| StatisticRepository.TextColumnScansLikeInt | statistic_service/internal/infrastructure/repository/repository.go:26 | an integer column and its decimal text convert to the same int |
| StatisticRepository.ScanInt | statistic_service/internal/infrastructure/repository/repository.go:26 | a row scans into an int exactly when it has one column and that column converts to a Go int (ColumnInt), and the value is that conversion |
| StatisticRepository.ScanDynamic | statistic_service/internal/infrastructure/repository/repository.go:82 | a row scans into a Dynamic exactly when it is a date column followed by a column that converts to a Go int, and the Dynamic holds that date and that int |
| StatisticRepository.ScanAllOk | statistic_service/internal/infrastructure/repository/repository.go:79-87 | the scan loop succeeds exactly when every row scans, and then gives one element per row, in row order |
| StatisticRepository.ScanAllFirstError | statistic_service/internal/infrastructure/repository/repository.go:79-87 | a failed scan loop returns the error of the first row that does not scan |
| StatisticRepository.CollectRows | statistic_service/internal/infrastructure/repository/repository.go:79-87 | the loop that appends scanned rows and returns early on a scan error computes ScanAll |
| StatisticRepository.GetCount | statistic_service/internal/infrastructure/repository/repository.go:23-57 | the count query goes through the context's querier; a query error is returned as it is; otherwise the result is the scan of the returned row, and it is Ok exactly when that row scans |
| StatisticRepository.GetDynamic | statistic_service/internal/infrastructure/repository/repository.go:59-155 | the dynamic query is sent and its rows scanned as DynamicReply says |
| StatisticRepository.GetTopTen | statistic_service/internal/infrastructure/repository/repository.go:157-225 | the whitelist is checked before any query, and the rows are scanned as TopTenReply says |
| StatisticRepository.TopTenRejects | statistic_service/internal/infrastructure/repository/repository.go:159-162 | a parameter outside the whitelist gets InvalidTopParameterError, and no query is sent |
| StatisticRepository.TopTenQueriesNamedTable | statistic_service/internal/infrastructure/repository/repository.go:158-172 | an accepted parameter sends one query, through the context's querier, on the table it names |
| StatisticRepository.TopTenOnePerRow | statistic_service/internal/infrastructure/repository/repository.go:179-187 | the top-ten list has one id per row, in row order, when every row scans, and fails otherwise |
| StatisticRepository.DynamicOnePerRow | statistic_service/internal/infrastructure/repository/repository.go:79-87 | the dynamic has one entry per row, in row order: the row's date and its count converted to a Go int |
| StatisticRepository.DynamicErrors | statistic_service/internal/infrastructure/repository/repository.go:72-87 | a query error is returned as it is; a scan error is some row's error, and no partial list comes back |
| StatisticRepository.QueriesRunInTransaction | statistic_service/internal/infrastructure/repository/repository.go:23-25 | inside an injected transaction, every query of the repository goes through that transaction |
| StatisticService.CallbackOutcome | statistic_service/internal/service/service.go:38-54 | a handler's transaction fails exactly when begin, the repository call or commit fails; a repository error is kept in the returned error |
| StatisticService.GetCount | statistic_service/internal/service/service.go:38-93 | the count succeeds exactly when its transaction commits, and is then the repository's count narrowed to int32; a repository error is kept; a begin error is returned as it is |
| StatisticService.GetDynamic | statistic_service/internal/service/service.go:95-171 | on commit, one response per repository day, in order, with the count narrowed to int32; otherwise the repository's error is kept; a begin error is returned as it is |
| StatisticService.GetTopTenPosts | statistic_service/internal/service/service.go:173-195 | on commit, the repository's post ids in order, narrowed to int32; otherwise the repository's error is kept; a begin error is returned as it is |
| StatisticService.GetTopTenUsers | statistic_service/internal/service/service.go:197-219 | on commit, the repository's user ids in order, narrowed to int32; otherwise the repository's error is kept; a begin error is returned as it is |
| StatisticService.InvalidTopParameterRollsBack | statistic_service/internal/infrastructure/repository/repository.go:157-162 | over its own repository, a parameter outside the whitelist rolls back the transaction and returns an error that is InvalidTopParameterError |
| StatisticService.CountRunsInTransaction | statistic_service/internal/service/service.go:39-40 | the count query of a request goes through the request's own transaction |
| PostsService.NewPost | posts_service/internal/service/postsservice/service.go:32-40 | the stored post has the request's fields, the caller as owner, both clock readings and no id |
| PostsService.CreatePost | posts_service/internal/service/postsservice/service.go:31-48 | the new post is handed to the repository, and its error is returned unchanged |
| PostsService.DeletePost | posts_service/internal/service/postsservice/service.go:50-57 | the post id and the caller go to the repository, and its error is returned unchanged |
| PostsService.UpdatedPost | posts_service/internal/service/postsservice/service.go:60-68 | the stored post has the request's id and post data, the caller as owner, the clock reading as update time, and a zero creation time |
| PostsService.UpdatePost | posts_service/internal/service/postsservice/service.go:59-76 | the updated post is handed to the repository, and its error is returned unchanged |
| PostsService.NewComment | posts_service/internal/service/postsservice/service.go:124-128 | the stored comment has the request's post and description and the caller as author |
| PostsService.PostComment | posts_service/internal/service/postsservice/service.go:123-136 | the comment is handed to the repository, and its error is returned unchanged |
| PostsService.NewLike | posts_service/internal/service/postsservice/service.go:139-142 | the stored like has the request's post and the caller |
| PostsService.PostLike | posts_service/internal/service/postsservice/service.go:138-150 | the like is handed to the repository, and its error is returned unchanged |
| PostsService.NewView | posts_service/internal/service/postsservice/service.go:153-156 | the stored view has the request's post and the caller |
| PostsService.PostView | posts_service/internal/service/postsservice/service.go:152-164 | the view is handed to the repository, and its error is returned unchanged |
| PostsService.PostResponse | posts_service/internal/service/postsservice/service.go:108-117 | a stored post as a message: ids narrowed to int32, every other field carried over |
| PostsService.GetPost | posts_service/internal/service/postsservice/service.go:78-96 | the repository's error unchanged, or the post as a message with the owner left unset |
| PostsService.GetPostList | posts_service/internal/service/postsservice/service.go:98-121 | the repository's error unchanged, or a list of the same length whose element i is post i as a message, owner included |
| PostsService.CommentResponse | posts_service/internal/service/postsservice/service.go:177-181 | a stored comment as a message: comment and post ids narrowed, description carried over, author left unset |
| PostsService.GetCommentList | posts_service/internal/service/postsservice/service.go:166-185 | the repository's error unchanged, or a list of the same length whose element i is comment i as a message |
| PostsService.CreatedPostReadsBack | posts_service/internal/service/postsservice/service.go:31-96 | a post that was stored and is read back under its int32 id keeps its id, name, description, tags, flag and both instants, and has no owner |
| PostsService.GetPostAgreesWithList | posts_service/internal/service/postsservice/service.go:85-117 | a single post and the same post in a list differ only in the owner, which only the list fills in |
| PostsService.UpdateKeepsRequest | posts_service/internal/service/postsservice/service.go:59-68 | an updated post, read back, is the request's id and post data with the caller as owner |
| UsersService.NewUser | users_service/internal/service/usersservice/service.go:33-39 | the stored user has the request's email, login and password, both clock readings, and no id, name or surname |
| UsersService.Register | users_service/internal/service/usersservice/service.go:32-48 | the id the repository gives the new user, or its error |
| UsersService.ProfileUpdate | users_service/internal/service/usersservice/service.go:78-83 | the update carries the request's email, name and surname and the clock reading; login, password and creation time stay zero |
| UsersService.UpdateUserInfo | users_service/internal/service/usersservice/service.go:77-91 | the update and the login go to the repository, and its error is returned unchanged |
| UsersService.GetUserInfo | users_service/internal/service/usersservice/service.go:93-101 | the stored user, or a NotFound status for any repository error |
| UsersService.GetUserInfoHidesCause | users_service/internal/service/usersservice/service.go:97 | errors.Is cannot find the repository's error inside the NotFound status |
| UsersService.LoginClaims | users_service/internal/service/usersservice/service.go:62-66 | the token's claims are exactly login and password as strings and user_id as a number; there is no expiry |
| UsersService.LoginAsWritten | users_service/internal/service/usersservice/service.go:50-75 | the credential check comes first, and its error stops the login; a failed user id lookup returns its error after the two calls |
| UsersService.SignFailureReportsSuccess | users_service/internal/service/usersservice/service.go:68-72 | as written, a signing failure after a valid login is reported as success with the empty token |
| UsersService.SignFailureExample | users_service/internal/service/usersservice/service.go:68-72 | a concrete library that cannot sign makes a valid login return "" and no error |
| UsersService.Login | users_service/internal/service/usersservice/service.go:50-75 | bad credentials return their error after one call; a failed user id lookup returns its error after two; otherwise the claims of login, password and id are signed with HS256 under the secret key, and the result is what signing returns, error included |
| UsersService.LoginOkIffSigned | users_service/internal/service/usersservice/service.go:50-75 | login succeeds exactly when the credentials check out, the user id is found and signing succeeds; the token is then the signature of the login claims |
| UsersService.BadCredentialsStopLogin | users_service/internal/service/usersservice/service.go:51-54 | wrong credentials return the repository's error, and the user id is never looked up |
| UsersService.LoginCorrectionIsConservative | users_service/internal/service/usersservice/service.go:68-72 | the corrected login makes the same calls and differs from the written one only when signing fails |
| EndToEnd.LoginClaimsDecode | users_service/internal/service/usersservice/service.go:62-66 | the claims of a login token decode into the gateway's Claims unchanged, and are valid at every time |
| EndToEnd.IssuedTokenVerifies | api_gateway_service/internal/middleware/middleware.go:23-50 | a token from Login passes the gateway's check at any time and gives back the login, password and user id it was issued for |
| EndToEnd.IssuedTokenReachesEndpoint | api_gateway_service/internal/middleware/middleware.go:52-63 | an authenticated endpoint reached with a token from Login runs once and sees the caller's identity; its UserID header reads back as the looked-up id |
| EndToEnd.CreatedPostRoundTrip | api_gateway_service/internal/infrastructure/models/converters.go:7-45 | a post created through the gateway and read back shows the client the fields it sent, the id the repository gave it, and no owner |
| EndToEnd.PostIDReachesRepository | api_gateway_service/internal/infrastructure/models/converters.go:16-20 | a gateway post id reaches the posts repository unchanged when it fits in an int32, and as a different id otherwise |

## Left out

- Logging: every `logger.Logger` call except LoggerMiddleware's "request started" and
  "request finished" lines, which are `Log` events of the trace. Also left out are process
  start-up, configuration, the gRPC servers and clients, and the HTTP API handlers: they are
  I/O around the core.
- Concurrency and context cancellation: the model serves one request at a time.
- The clock: each `time.Now()` reading is a parameter (two for CreatePost and Register,
  because the source reads the clock twice). Instants are integers, and `timestamppb.New` and
  `time.Local()` keep the instant.
- SQL and ClickHouse semantics (the text of the queries, grouping, ordering, `LIMIT 10`): a
  query is a value naming what it asks for, and the database's answer is given.
  `rows.Err()` and `rows.Close()` are not modelled; the source never checks `rows.Err()`.
- The repositories of the posts and users services, the golang-jwt library's signature
  algorithms and base64/JSON encoding, and Go's reverse proxy transport: each is an oracle of
  answers.
- JSON decoding of claims is exact-key; `encoding/json` also matches keys without regard to
  case, which is not modelled.
- Nil protocol-buffer messages and nil slice elements; panics on failed type assertions.
- Middleware.ProxyMiddleware: the upstream's response body and headers are not modelled; only
  its status, or 502 through the ErrorHandler.
- Middleware.Header: Go's `http.Header` maps a key to a list of values. The model keeps one
  value per key. `Get` reads the first value and `Set` replaces the whole list, and on one
  value per key the two forms agree. What the model cannot show is a request with several
  values under one key, for example two `Authorization` headers, of which Go checks only the
  first. Nor can it show such a header passing unchanged through `JWTVerify` and the proxy,
  so OnlyIdentityHeadersChange and ProxyForwards speak of single-valued headers.
- Middleware.ProxyForwards: the `Forwarded` request is the Director's output. What
  `httputil.ReverseProxy` does to it after the Director is not modelled: it removes hop-by-hop
  headers, appends the client address to `X-Forwarded-For`, and sets an empty `User-Agent`
  when none was sent. So the headers on the wire are not exactly the received ones.
- Tokens.TimeValid: an `exp` or `nbf` must be a JSON integer. `jwt.NumericDate` decodes
  through `json.Number`, so it also accepts a fractional number and a quoted numeric string
  such as `"9999999999"`. The model rejects tokens carrying those forms, which the library
  would accept.
- Middleware.VerifyToken: the registered claims other than `exp` and `nbf` (`iat`, `aud`,
  `iss`) and the library's leeway are not modelled.
- StatisticService: `GetViewsCount`, `GetCommentsCount` and `GetLikesCount` are one member
  with a table parameter, and so are the three dynamics. The same goes for the repository's
  triples and for GetTopTenPosts/GetTopTenUsers with a column parameter.
- Converters.PostIDToProto also stands for `PostID.ToStatisticProto`, which builds the same
  message.
- PostsService.DbPost: the package declares `DbPost` twice, and only one definition can
  compile. The model uses the fields both definitions share; `Views` is never set by the
  service.
- UsersService.GetUserInfo: the status error is modelled as a NotFound value holding the
  cause; its message text is not.
- The gateway's application routes, which build these chains, are not part of this model.
  The chains are any `Handler` value.

Three behaviours of the code worth knowing:

- Tokens carry no expiry. The login token has only login, password and user_id, and the
  gateway accepts a token with no `exp` at any time.
- Identity goes downstream as `Login`, `Password` and `UserID` headers. The gateway
  canonicalises `UserID` to `Userid`.
- Login returns a nil error when signing fails (see Findings).

## Findings

| source | as written | input that shows it | evidently intended | confidence | as-written member | corrected member |
|---|---|---|---|---|---|---|
| users_service/internal/service/usersservice/service.go:68-72 | when `SignedString` fails, Login returns `"", nil`, which reports success with an empty token | valid credentials and a known user, with a JWT library whose signing fails (`SignFailureExample`) | return the signing error, as the two earlier failure branches do | high; not executed | UsersService.LoginAsWritten (shown by UsersService.SignFailureReportsSuccess) | UsersService.Login (proved by UsersService.LoginOkIffSigned) |
