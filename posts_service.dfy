/**
 * The posts service's gRPC handlers: each builds a database record from the request and the
 * caller's id, or maps the repository's records into response messages. The repository is
 * the PostsRepository interface; its answers are given.
 */
module PostsService {
  import opened Wrappers
  import opened Numeric
  import pb = Protos

  /** models.DbPost. */
  datatype DbPost = DbPost(
    id: Int64,
    name: string,
    description: string,
    userId: Int64,
    securityFlag: bool,
    createdAt: pb.Instant,
    updatedAt: pb.Instant,
    tags: seq<string>)

  /** models.DbComment. */
  datatype DbComment = DbComment(id: Int64, postId: Int64, userId: Int64, description: string)

  /** models.DbLike. */
  datatype DbLike = DbLike(id: Int64, userId: Int64, postId: Int64)

  /** models.DbView. */
  datatype DbView = DbView(id: Int64, postId: Int64, userId: Int64)

  /** The PostsRepository interface: the repository's answer to each call. */
  datatype PostsRepository = PostsRepository(
    createPost: DbPost -> Option<Error>,
    deletePost: (Int32, Int32) -> Option<Error>,
    updatePost: DbPost -> Option<Error>,
    getPost: (Int32, Int32) -> Result<DbPost>,
    getPostList: (Int32, Int32, Int32) -> Result<seq<DbPost>>,
    postComment: DbComment -> Option<Error>,
    postLike: DbLike -> Option<Error>,
    postView: DbView -> Option<Error>,
    getCommentList: (Int32, Int32, Int32) -> Result<seq<DbComment>>)

  // ---------------------------------------------------------------------------
  // Writes

  /**
   * The record CreatePost stores: name, tags, description and security flag from the request,
   * the caller as owner, the two clock readings as creation and update time, no id yet.
   */
  function NewPost(p: pb.PostDataRequest, userID: Int32, createdAt: pb.Instant, updatedAt: pb.Instant): (post: DbPost)
    ensures post.name == p.postName && post.description == p.postDescription
    ensures post.tags == p.tags && post.securityFlag == p.securityFlag
    ensures post.userId == userID && post.id == 0
    ensures post.createdAt == createdAt && post.updatedAt == updatedAt
  {
    DbPost(0, p.postName, p.postDescription, userID, p.securityFlag, createdAt, updatedAt, p.tags)
  }

  /** CreatePost: the new record goes to the repository, whose error is returned unchanged. */
  function CreatePost(repo: PostsRepository, p: pb.PostDataRequest, userID: Int32,
                      createdAt: pb.Instant, updatedAt: pb.Instant): (err: Option<Error>)
    ensures err == repo.createPost(NewPost(p, userID, createdAt, updatedAt))
  {
    var post := NewPost(p, userID, createdAt, updatedAt);
    repo.createPost(post)
  }

  /** DeletePost: the post id and the caller go to the repository, whose error is returned unchanged. */
  function DeletePost(repo: PostsRepository, p: pb.PostID, userID: Int32): (err: Option<Error>)
    ensures err == repo.deletePost(p.postId, userID)
  {
    repo.deletePost(p.postId, userID)
  }

  /**
   * The record UpdatePost stores: the id of the request, the post data of the request, the
   * caller as owner, the clock reading as update time, and a zero creation time.
   */
  function UpdatedPost(p: pb.UpdatePostRequest, userID: Int32, updatedAt: pb.Instant): (post: DbPost)
    ensures post.id == p.postId && post.userId == userID
    ensures post.name == p.postData.postName && post.description == p.postData.postDescription
    ensures post.tags == p.postData.tags && post.securityFlag == p.postData.securityFlag
    ensures post.updatedAt == updatedAt && post.createdAt == pb.ZeroTime
  {
    DbPost(p.postId, p.postData.postName, p.postData.postDescription, userID,
           p.postData.securityFlag, pb.ZeroTime, updatedAt, p.postData.tags)
  }

  /** UpdatePost: the updated record goes to the repository, whose error is returned unchanged. */
  function UpdatePost(repo: PostsRepository, p: pb.UpdatePostRequest, userID: Int32, updatedAt: pb.Instant): (err: Option<Error>)
    ensures err == repo.updatePost(UpdatedPost(p, userID, updatedAt))
  {
    var post := UpdatedPost(p, userID, updatedAt);
    repo.updatePost(post)
  }

  /** The record PostComment stores: the post of the request, the caller, the description. */
  function NewComment(p: pb.PostCommentRequest, userID: Int32): (c: DbComment)
    ensures c.postId == p.postId && c.userId == userID && c.description == p.commentDescription && c.id == 0
  {
    DbComment(0, p.postId, userID, p.commentDescription)
  }

  function PostComment(repo: PostsRepository, p: pb.PostCommentRequest, userID: Int32): (err: Option<Error>)
    ensures err == repo.postComment(NewComment(p, userID))
  {
    var comment := NewComment(p, userID);
    repo.postComment(comment)
  }

  /** The record PostLike stores: the post of the request and the caller. */
  function NewLike(p: pb.PostID, userID: Int32): (l: DbLike)
    ensures l.postId == p.postId && l.userId == userID && l.id == 0
  {
    DbLike(0, userID, p.postId)
  }

  function PostLike(repo: PostsRepository, p: pb.PostID, userID: Int32): (err: Option<Error>)
    ensures err == repo.postLike(NewLike(p, userID))
  {
    var like := NewLike(p, userID);
    repo.postLike(like)
  }

  /** The record PostView stores: the post of the request and the caller. */
  function NewView(p: pb.PostID, userID: Int32): (v: DbView)
    ensures v.postId == p.postId && v.userId == userID && v.id == 0
  {
    DbView(0, p.postId, userID)
  }

  function PostView(repo: PostsRepository, p: pb.PostID, userID: Int32): (err: Option<Error>)
    ensures err == repo.postView(NewView(p, userID))
  {
    var view := NewView(p, userID);
    repo.postView(view)
  }

  // ---------------------------------------------------------------------------
  // Reads

  /** A stored post as a response message: ids narrowed to int32, everything else copied. */
  function PostResponse(post: DbPost): (r: pb.PostDataResponse)
    ensures r.postId == ToInt32(post.id) && r.userId == ToInt32(post.userId)
    ensures r.postName == post.name && r.postDescription == post.description
    ensures r.securityFlag == post.securityFlag && r.tags == post.tags
    ensures r.createdAt == post.createdAt && r.updatedAt == post.updatedAt
  {
    pb.PostDataResponse(ToInt32(post.id), post.name, post.description, post.securityFlag,
                        post.createdAt, post.updatedAt, post.tags, ToInt32(post.userId))
  }

  /**
   * GetPost: the repository's error unchanged, or the post as a response message whose user
   * id is left unset.
   */
  function GetPost(repo: PostsRepository, p: pb.PostID, userID: Int32): (r: Result<pb.PostDataResponse>)
    ensures repo.getPost(p.postId, userID).Err? ==> r == Err(repo.getPost(p.postId, userID).error)
    ensures repo.getPost(p.postId, userID).Ok? ==>
      r == Ok(PostResponse(repo.getPost(p.postId, userID).value).(userId := 0))
  {
    match repo.getPost(p.postId, userID)
    case Err(e) => Err(e)
    case Ok(post) =>
      Ok(pb.PostDataResponse(ToInt32(post.id), post.name, post.description, post.securityFlag,
                             post.createdAt, post.updatedAt, post.tags, 0))
  }

  /**
   * GetPostList: the page, page size and caller go to the repository; its error unchanged, or
   * a response list of the same length whose element i is post i as a response message.
   */
  method GetPostList(repo: PostsRepository, p: pb.PaginatedListRequest, userID: Int32) returns (r: Result<pb.ListPostsResponse>)
    ensures var answer := repo.getPostList(p.page, p.pageSize, userID);
      && (answer.Err? ==> r == Err(answer.error))
      && (answer.Ok? ==>
            && r.Ok?
            && |r.value.posts| == |answer.value|
            && forall i :: 0 <= i < |answer.value| ==> r.value.posts[i] == PostResponse(answer.value[i]))
  {
    var answer := repo.getPostList(p.page, p.pageSize, userID);
    if answer.Err? {
      return Err(answer.error);
    }
    var posts := answer.value;
    var responses := new pb.PostDataResponse[|posts|];
    for ind := 0 to |posts|
      invariant forall j :: 0 <= j < ind ==> responses[j] == PostResponse(posts[j])
    {
      var post := posts[ind];
      responses[ind] := pb.PostDataResponse(ToInt32(post.id), post.name, post.description, post.securityFlag,
                                            post.createdAt, post.updatedAt, post.tags, ToInt32(post.userId));
    }
    r := Ok(pb.ListPostsResponse(responses[..]));
  }

  /** A stored comment as a response message: the comment and post ids narrowed, the description copied, no user id. */
  function CommentResponse(c: DbComment): (r: pb.CommentDataResponse)
    ensures r.commentId == ToInt32(c.id) && r.postId == ToInt32(c.postId)
    ensures r.commentDescription == c.description && r.userId == 0
  {
    pb.CommentDataResponse(ToInt32(c.id), ToInt32(c.postId), 0, c.description)
  }

  /**
   * GetCommentList: the page, page size and caller go to the repository; its error unchanged,
   * or a response list of the same length whose element i is comment i as a response message.
   */
  method GetCommentList(repo: PostsRepository, p: pb.PaginatedListRequest, userID: Int32) returns (r: Result<pb.ListCommentsResponse>)
    ensures var answer := repo.getCommentList(p.page, p.pageSize, userID);
      && (answer.Err? ==> r == Err(answer.error))
      && (answer.Ok? ==>
            && r.Ok?
            && |r.value.comments| == |answer.value|
            && forall i :: 0 <= i < |answer.value| ==> r.value.comments[i] == CommentResponse(answer.value[i]))
  {
    var answer := repo.getCommentList(p.page, p.pageSize, userID);
    if answer.Err? {
      return Err(answer.error);
    }
    var comments := answer.value;
    var responses := new pb.CommentDataResponse[|comments|];
    for ind := 0 to |comments|
      invariant forall j :: 0 <= j < ind ==> responses[j] == CommentResponse(comments[j])
    {
      var c := comments[ind];
      responses[ind] := pb.CommentDataResponse(ToInt32(c.id), ToInt32(c.postId), 0, c.description);
    }
    r := Ok(pb.ListCommentsResponse(responses[..]));
  }

  // ---------------------------------------------------------------------------
  // Properties

  /**
   * A post read back in int32 range keeps its id and contents: GetPost gives back what
   * CreatePost stored, under the id the repository assigned, without its owner.
   */
  lemma CreatedPostReadsBack(repo: PostsRepository, p: pb.PostDataRequest, userID: Int32,
                             createdAt: pb.Instant, updatedAt: pb.Instant, id: Int32)
    requires repo.getPost(id, userID) == Ok(NewPost(p, userID, createdAt, updatedAt).(id := id))
    ensures var r := GetPost(repo, pb.PostID(id), userID);
      && r.Ok?
      && r.value.postId == id && r.value.userId == 0
      && r.value.postName == p.postName && r.value.postDescription == p.postDescription
      && r.value.tags == p.tags && r.value.securityFlag == p.securityFlag
      && r.value.createdAt == createdAt && r.value.updatedAt == updatedAt
  {
  }

  /** A single post and the same post in a list differ only in the user id, which only the list carries. */
  lemma GetPostAgreesWithList(repo: PostsRepository, p: pb.PostID, userID: Int32)
    requires repo.getPost(p.postId, userID).Ok?
    ensures GetPost(repo, p, userID).value == PostResponse(repo.getPost(p.postId, userID).value).(userId := 0)
    ensures InInt32(repo.getPost(p.postId, userID).value.userId) ==>
      PostResponse(repo.getPost(p.postId, userID).value).userId == repo.getPost(p.postId, userID).value.userId
  {
  }

  /** Updating a post keeps the caller and every field of the request's post data, under the request's id. */
  lemma UpdateKeepsRequest(p: pb.UpdatePostRequest, userID: Int32, updatedAt: pb.Instant)
    ensures var post := UpdatedPost(p, userID, updatedAt);
      PostResponse(post) == pb.PostDataResponse(p.postId, p.postData.postName, p.postData.postDescription,
        p.postData.securityFlag, pb.ZeroTime, updatedAt, p.postData.tags, userID)
  {
  }
}
