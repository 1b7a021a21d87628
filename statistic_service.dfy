/**
 * The statistic service's gRPC handlers: each runs one repository call inside a transaction of
 * the transactor and converts the repository's answer into the response message.
 */
module StatisticService {
  import opened Wrappers
  import opened Numeric
  import opened Txs
  import opened StatisticRepository
  import Repo = StatisticRepository
  import pb = Protos

  /** The StatisticRepository interface the service is written against. */
  datatype StatisticRepo = StatisticRepo(
    count: (Context, Table, Int64) -> Result<Int64>,
    dynamic: (Context, Table, Int64) -> Result<seq<Dynamic>>,
    topTen: (Context, Column, string) -> Result<seq<Int64>>)

  /** The service: its repository, and the driver answers of the database its transactor begins transactions on. */
  datatype Service = Service(repository: StatisticRepo, tr: Driver)

  /** The context the repository is called with: the request's, carrying the new transaction. */
  function Inside(s: Service, ctx: Context): Context {
    InjectTx(ctx, s.tr.txId)
  }

  /** The transaction ran to a successful commit around the callback. */
  predicate Committed<V>(s: Service, answer: Result<V>) {
    s.tr.beginErr.None? && answer.Ok? && s.tr.commitErr.None?
  }

  /** What the transactor makes of a callback, in terms of the callback's answer inside the transaction. */
  lemma CallbackOutcome<V>(s: Service, ctx: Context, f: Context -> Result<V>)
    ensures var report := RunWithValue(s.tr, ctx, f);
      var answer := f(Inside(s, ctx));
      && (report.err.None? <==> Committed(s, answer))
      && (report.err.None? ==> report.val == Some(answer.value))
      && (answer.Err? && s.tr.beginErr.None? ==> report.err.Some? && Is(report.err.value, answer.error))
      && (s.tr.beginErr.Some? ==> report.err == s.tr.beginErr)
  {
    NilErrorIffCommitted(s.tr, ctx, f);
    if s.tr.beginErr.Some? {
      BeginFailure(s.tr, ctx, f);
    } else if f(Inside(s, ctx)).Err? {
      CallbackFailure(s.tr, ctx, f);
    } else if s.tr.commitErr.None? {
      CommitSuccess(s.tr, ctx, f);
    }
  }

  function CountCallback(s: Service, table: Table, postID: Int64): Context -> Result<Int64> {
    c => s.repository.count(c, table, postID)
  }

  /**
   * GetViewsCount, GetCommentsCount and GetLikesCount: the matching repository count for
   * int(p.PostId), in a transaction; the transactor's error, or the count narrowed to int32.
   */
  function GetCount(s: Service, ctx: Context, table: Table, p: pb.PostID): (r: Result<pb.CountResponse>)
    ensures var answer := s.repository.count(Inside(s, ctx), table, p.postId);
      && (r.Ok? <==> Committed(s, answer))
      && (r.Ok? ==> r.value.count == ToInt32(answer.value))
      && (answer.Err? && s.tr.beginErr.None? ==> r.Err? && Is(r.error, answer.error))
      && (s.tr.beginErr.Some? ==> r == Err(s.tr.beginErr.value))
  {
    var report := RunWithValue(s.tr, ctx, CountCallback(s, table, p.postId));
    CallbackOutcome(s, ctx, CountCallback(s, table, p.postId));
    if report.err.Some? then Err(report.err.value)
    else Ok(pb.CountResponse(ToInt32(report.val.value)))
  }

  function DynamicCallback(s: Service, table: Table, postID: Int64): Context -> Result<seq<Dynamic>> {
    c => s.repository.dynamic(c, table, postID)
  }

  /**
   * GetViewsDynamic, GetCommentsDynamic and GetLikesDynamic: the matching repository dynamic,
   * copied into a response slice of the same length, day by day in the same order, each
   * count narrowed to int32.
   */
  method GetDynamic(s: Service, ctx: Context, table: Table, p: pb.PostID) returns (r: Result<pb.DynamicListResponse>)
    ensures var answer := s.repository.dynamic(Inside(s, ctx), table, p.postId);
      && (r.Ok? <==> Committed(s, answer))
      && (r.Ok? ==>
            && |r.value.dynamic| == |answer.value|
            && forall i :: 0 <= i < |answer.value| ==>
                 r.value.dynamic[i] == pb.DynamicResponse(pb.CountResponse(ToInt32(answer.value[i].count)), answer.value[i].date))
      && (answer.Err? && s.tr.beginErr.None? ==> r.Err? && Is(r.error, answer.error))
      && (s.tr.beginErr.Some? ==> r == Err(s.tr.beginErr.value))
  {
    var report := RunWithValue(s.tr, ctx, DynamicCallback(s, table, p.postId));
    CallbackOutcome(s, ctx, DynamicCallback(s, table, p.postId));
    if report.err.Some? {
      return Err(report.err.value);
    }
    var dyn := report.val.value;
    var dynamic := new pb.DynamicResponse[|dyn|];
    for i := 0 to |dyn|
      invariant forall j :: 0 <= j < i ==>
        dynamic[j] == pb.DynamicResponse(pb.CountResponse(ToInt32(dyn[j].count)), dyn[j].date)
    {
      dynamic[i] := pb.DynamicResponse(pb.CountResponse(ToInt32(dyn[i].count)), dyn[i].date);
    }
    r := Ok(pb.DynamicListResponse(dynamic[..]));
  }

  function TopTenCallback(s: Service, column: Column, par: string): Context -> Result<seq<Int64>> {
    c => s.repository.topTen(c, column, par)
  }

  /** GetTopTenPosts: the repository's post ids for the parameter, as given, each narrowed to int32, in order. */
  method GetTopTenPosts(s: Service, ctx: Context, p: pb.TopTenParameter) returns (r: Result<pb.TopTenPostsResponse>)
    ensures var answer := s.repository.topTen(Inside(s, ctx), PostIdColumn, p.par);
      && (r.Ok? <==> Committed(s, answer))
      && (r.Ok? ==>
            && |r.value.posts| == |answer.value|
            && forall i :: 0 <= i < |answer.value| ==> r.value.posts[i] == pb.PostID(ToInt32(answer.value[i])))
      && (answer.Err? && s.tr.beginErr.None? ==> r.Err? && Is(r.error, answer.error))
      && (s.tr.beginErr.Some? ==> r == Err(s.tr.beginErr.value))
  {
    var report := RunWithValue(s.tr, ctx, TopTenCallback(s, PostIdColumn, p.par));
    CallbackOutcome(s, ctx, TopTenCallback(s, PostIdColumn, p.par));
    if report.err.Some? {
      return Err(report.err.value);
    }
    var ids := report.val.value;
    var posts := new pb.PostID[|ids|];
    for i := 0 to |ids|
      invariant forall j :: 0 <= j < i ==> posts[j] == pb.PostID(ToInt32(ids[j]))
    {
      posts[i] := pb.PostID(ToInt32(ids[i]));
    }
    r := Ok(pb.TopTenPostsResponse(posts[..]));
  }

  /** GetTopTenUsers: the repository's user ids for the parameter, as given, each narrowed to int32, in order. */
  method GetTopTenUsers(s: Service, ctx: Context, p: pb.TopTenParameter) returns (r: Result<pb.TopTenUsersResponse>)
    ensures var answer := s.repository.topTen(Inside(s, ctx), UserIdColumn, p.par);
      && (r.Ok? <==> Committed(s, answer))
      && (r.Ok? ==>
            && |r.value.users| == |answer.value|
            && forall i :: 0 <= i < |answer.value| ==> r.value.users[i] == pb.UserID(ToInt32(answer.value[i])))
      && (answer.Err? && s.tr.beginErr.None? ==> r.Err? && Is(r.error, answer.error))
      && (s.tr.beginErr.Some? ==> r == Err(s.tr.beginErr.value))
  {
    var report := RunWithValue(s.tr, ctx, TopTenCallback(s, UserIdColumn, p.par));
    CallbackOutcome(s, ctx, TopTenCallback(s, UserIdColumn, p.par));
    if report.err.Some? {
      return Err(report.err.value);
    }
    var ids := report.val.value;
    var users := new pb.UserID[|ids|];
    for i := 0 to |ids|
      invariant forall j :: 0 <= j < i ==> users[j] == pb.UserID(ToInt32(ids[j]))
    {
      users[i] := pb.UserID(ToInt32(ids[i]));
    }
    r := Ok(pb.TopTenUsersResponse(users[..]));
  }

  // ---------------------------------------------------------------------------
  // The service over the repository of this service

  /** The repository of this service, seen through the StatisticRepository interface. */
  function RepositoryOf(r: Repository): StatisticRepo {
    StatisticRepo(
      (c: Context, t: Table, id: Int64) => Repo.GetCount(r, c, t, id).result,
      (c: Context, t: Table, id: Int64) => DynamicReply(r, c, t, id).result,
      (c, col, par) => TopTenReply(r, c, col, par).result)
  }

  /**
   * Over its own repository, a top-ten request with a parameter outside the whitelist fails
   * with an error that is InvalidTopParameterError, and its transaction is rolled back, not
   * committed.
   */
  lemma InvalidTopParameterRollsBack(r: Repository, d: Driver, ctx: Context, column: Column, par: string)
    requires par != "likes" && par != "comments" && par != "views"
    requires d.beginErr.None?
    ensures var s := Service(RepositoryOf(r), d);
      && s.repository.topTen(Inside(s, ctx), column, par) == Err(InvalidTopParameter)
      && var report := RunWithValue(d, ctx, TopTenCallback(s, column, par));
      && report.err.Some? && Is(report.err.value, InvalidTopParameter)
      && report.ops == [Begin(d.txId), Rollback(d.txId)]
  {
    var s := Service(RepositoryOf(r), d);
    TopTenRejects(r, Inside(s, ctx), column, par);
    CallbackFailure(d, ctx, TopTenCallback(s, column, par));
  }

  /** Over its own repository, the count query of a request runs inside the request's transaction. */
  lemma CountRunsInTransaction(r: Repository, d: Driver, ctx: Context, table: Table, p: pb.PostID)
    ensures Repo.GetCount(r, Inside(Service(RepositoryOf(r), d), ctx), table, p.postId).sent ==
      Some(Sent(InTx(d.txId), CountQuery(table, p.postId)))
  {
    QuerierOfInjected(ctx, d.txId, Db);
  }
}
