/**
 * The gateway's JSON bodies and their conversions to and from the protocol-buffer messages
 * of the backends. Gateway ids are Go `int`s; on the wire they are `int32`s, so every
 * conversion towards a backend narrows them and every conversion back widens them.
 */
module Converters {
  import opened Numeric
  import pb = Protos

  datatype CreatePostRequest = CreatePostRequest(
    postName: string,
    postDescription: string,
    tags: seq<string>,
    securityFlag: bool)

  datatype PostID = PostID(postID: Int64)

  datatype UpdatePostRequest = UpdatePostRequest(
    postID: Int64,
    postName: string,
    postDescription: string,
    tags: seq<string>,
    securityFlag: bool)

  datatype GetPostResponse = GetPostResponse(
    postID: Int64,
    postName: string,
    postDescription: string,
    securityFlag: bool,
    createdAt: pb.Instant,
    updatedAt: pb.Instant,
    tags: seq<string>,
    userID: Int64)

  datatype GetPostListResponse = GetPostListResponse(posts: seq<GetPostResponse>)

  datatype PostCommentRequest = PostCommentRequest(postID: Int64, description: string)

  datatype GetCommentResponse = GetCommentResponse(
    commentID: Int64,
    userID: Int64,
    postID: Int64,
    description: string)

  datatype GetCommentListResponse = GetCommentListResponse(comments: seq<GetCommentResponse>)

  datatype DynamicResponse = DynamicResponse(count: Int64, date: pb.Instant)

  datatype DynamicListResponse = DynamicListResponse(dynamic: seq<DynamicResponse>)

  datatype TopParameter = TopParameter(parameter: string)

  datatype TopTenResponse = TopTenResponse(top: seq<Int64>)

  datatype CountResponse = CountResponse(count: Int32)

  // ---------------------------------------------------------------------------
  // Towards the backends

  /** CreatePostRequest.ToPostsProto: the four fields, unchanged. */
  function CreatePostToProto(m: CreatePostRequest): (r: pb.PostDataRequest)
    ensures r.postName == m.postName && r.postDescription == m.postDescription
    ensures r.tags == m.tags && r.securityFlag == m.securityFlag
  {
    pb.PostDataRequest(m.postName, m.postDescription, m.tags, m.securityFlag)
  }

  /**
   * PostID.ToPostsProto, and PostID.ToStatisticProto, which builds the same message: the id
   * narrowed to int32. Ids outside int32's range wrap around.
   */
  function PostIDToProto(m: PostID): (r: pb.PostID)
    ensures InInt32(m.postID) ==> r.postId == m.postID
    ensures (m.postID - r.postId) % TwoTo32 == 0
  {
    pb.PostID(ToInt32(m.postID))
  }

  /** UpdatePostRequest.ToPostsProto: the id narrowed, the post data copied unchanged. */
  function UpdatePostToProto(m: UpdatePostRequest): (r: pb.UpdatePostRequest)
    ensures r.postId == PostIDToProto(PostID(m.postID)).postId
    ensures r.postData == CreatePostToProto(CreatePostRequest(m.postName, m.postDescription, m.tags, m.securityFlag))
  {
    pb.UpdatePostRequest(ToInt32(m.postID),
      pb.PostDataRequest(m.postName, m.postDescription, m.tags, m.securityFlag))
  }

  /** PostCommentRequest.ToPostsProto: the post id narrowed, the description copied. */
  function PostCommentToProto(m: PostCommentRequest): (r: pb.PostCommentRequest)
    ensures r.postId == PostIDToProto(PostID(m.postID)).postId
    ensures r.commentDescription == m.description
  {
    pb.PostCommentRequest(ToInt32(m.postID), m.description)
  }

  /** TopParameter.ToStatisticProto: the parameter, unchanged. */
  function TopParameterToProto(m: TopParameter): (r: pb.TopTenParameter)
    ensures r.par == m.parameter
  {
    pb.TopTenParameter(m.parameter)
  }

  // ---------------------------------------------------------------------------
  // Back from the backends

  /** FromProtoPostResponse: every field copied, ids widened, instants kept. */
  function FromProtoPostResponse(p: pb.PostDataResponse): (r: GetPostResponse)
    ensures r.postID == p.postId && r.userID == p.userId
    ensures r.postName == p.postName && r.postDescription == p.postDescription
    ensures r.securityFlag == p.securityFlag && r.tags == p.tags
    ensures r.createdAt == p.createdAt && r.updatedAt == p.updatedAt
  {
    GetPostResponse(p.postId, p.postName, p.postDescription, p.securityFlag,
                    p.createdAt, p.updatedAt, p.tags, p.userId)
  }

  /** FromProtoListPostResponse: a slice of the same length, filled index by index. */
  method FromProtoListPostResponse(p: pb.ListPostsResponse) returns (r: GetPostListResponse)
    ensures |r.posts| == |p.posts|
    ensures forall i :: 0 <= i < |p.posts| ==> r.posts[i] == FromProtoPostResponse(p.posts[i])
  {
    var posts := new GetPostResponse[|p.posts|];
    for i := 0 to |p.posts|
      invariant forall j :: 0 <= j < i ==> posts[j] == FromProtoPostResponse(p.posts[j])
    {
      posts[i] := FromProtoPostResponse(p.posts[i]);
    }
    r := GetPostListResponse(posts[..]);
  }

  /** FromProtoPostCommentResponse: the comment, post and user ids widened, the description copied. */
  function FromProtoPostCommentResponse(p: pb.CommentDataResponse): (r: GetCommentResponse)
    ensures r.commentID == p.commentId && r.postID == p.postId && r.userID == p.userId
    ensures r.description == p.commentDescription
  {
    GetCommentResponse(p.commentId, p.userId, p.postId, p.commentDescription)
  }

  /** FromProtoListCommentResponse: a slice of the same length, filled index by index. */
  method FromProtoListCommentResponse(p: pb.ListCommentsResponse) returns (r: GetCommentListResponse)
    ensures |r.comments| == |p.comments|
    ensures forall i :: 0 <= i < |p.comments| ==> r.comments[i] == FromProtoPostCommentResponse(p.comments[i])
  {
    var comments := new GetCommentResponse[|p.comments|];
    for i := 0 to |p.comments|
      invariant forall j :: 0 <= j < i ==> comments[j] == FromProtoPostCommentResponse(p.comments[j])
    {
      comments[i] := FromProtoPostCommentResponse(p.comments[i]);
    }
    r := GetCommentListResponse(comments[..]);
  }

  /** FromProtoDynamuicListResponse: per day, the count widened and the instant kept, in the same order. */
  method FromProtoDynamicListResponse(p: pb.DynamicListResponse) returns (r: DynamicListResponse)
    ensures |r.dynamic| == |p.dynamic|
    ensures forall i :: 0 <= i < |p.dynamic| ==>
      r.dynamic[i].count == p.dynamic[i].count.count && r.dynamic[i].date == p.dynamic[i].data
  {
    var dynamic := new DynamicResponse[|p.dynamic|];
    for i := 0 to |p.dynamic|
      invariant forall j :: 0 <= j < i ==>
        dynamic[j].count == p.dynamic[j].count.count && dynamic[j].date == p.dynamic[j].data
    {
      var d := p.dynamic[i];
      dynamic[i] := DynamicResponse(d.count.count, d.data);
    }
    r := DynamicListResponse(dynamic[..]);
  }

  /** FromProtoTopTenPostsResponse: the post ids, widened, in the same order. */
  method FromProtoTopTenPostsResponse(p: pb.TopTenPostsResponse) returns (r: TopTenResponse)
    ensures |r.top| == |p.posts|
    ensures forall i :: 0 <= i < |p.posts| ==> r.top[i] == p.posts[i].postId
  {
    var top := new Int64[|p.posts|];
    for i := 0 to |p.posts|
      invariant forall j :: 0 <= j < i ==> top[j] == p.posts[j].postId
    {
      top[i] := p.posts[i].postId;
    }
    r := TopTenResponse(top[..]);
  }

  /** FromProtoTopTenUsersResponse: the user ids, widened, in the same order. */
  method FromProtoTopTenUsersResponse(p: pb.TopTenUsersResponse) returns (r: TopTenResponse)
    ensures |r.top| == |p.users|
    ensures forall i :: 0 <= i < |p.users| ==> r.top[i] == p.users[i].userId
  {
    var top := new Int64[|p.users|];
    for i := 0 to |p.users|
      invariant forall j :: 0 <= j < i ==> top[j] == p.users[j].userId
    {
      top[i] := p.users[i].userId;
    }
    r := TopTenResponse(top[..]);
  }

  /** FromProtoCountResponse: the count, unchanged. */
  function FromProtoCountResponse(p: pb.CountResponse): (r: CountResponse)
    ensures r.count == p.count
  {
    CountResponse(p.count)
  }

  // ---------------------------------------------------------------------------
  // Properties

  /**
   * A post id survives the trip to a backend and back exactly when it fits in an int32:
   * int(int32(x)) == x holds for those ids and fails for every other one.
   */
  lemma PostIDRoundTrip(m: PostID, p: pb.PostDataResponse)
    requires p.postId == PostIDToProto(m).postId
    ensures FromProtoPostResponse(p).postID == m.postID <==> InInt32(m.postID)
  {
  }

  /**
   * An id in [2^31, 2^32) reaches the backend as a negative id, 2^32 below it; one in
   * [2^32, 2^32 + 2^31) as the id 2^32 below it, so 2^32 + 1 arrives as post 1.
   */
  lemma PostIDWraps(m: PostID)
    ensures 0x8000_0000 <= m.postID < 0x1_0000_0000 ==>
      PostIDToProto(m).postId == m.postID - 0x1_0000_0000 < 0
    ensures 0x1_0000_0000 <= m.postID < 0x1_8000_0000 ==>
      PostIDToProto(m).postId == m.postID - 0x1_0000_0000 >= 0
  {
  }

  /** Ids that differ in int32 range stay different on the wire. */
  lemma PostIDToProtoInjective(m: PostID, n: PostID)
    requires InInt32(m.postID) && InInt32(n.postID)
    ensures PostIDToProto(m) == PostIDToProto(n) <==> m == n
  {
  }
}
