/**
 * The protocol-buffer messages the gateway, the posts service and the statistic service
 * exchange over gRPC. Every scalar field keeps its wire type; a google.protobuf.Timestamp is
 * kept as the instant it denotes.
 */
module Protos {
  import opened Numeric

  /** An instant, in seconds relative to the Unix epoch; time zones are not part of an instant. */
  type Instant = int

  /** Go's zero time.Time (January 1 of year 1, UTC), as an instant. */
  const ZeroTime: Instant := -62135596800

  datatype PostDataRequest = PostDataRequest(
    postName: string,
    postDescription: string,
    tags: seq<string>,
    securityFlag: bool)

  datatype PostID = PostID(postId: Int32)

  datatype UpdatePostRequest = UpdatePostRequest(postId: Int32, postData: PostDataRequest)

  datatype PostDataResponse = PostDataResponse(
    postId: Int32,
    postName: string,
    postDescription: string,
    securityFlag: bool,
    createdAt: Instant,
    updatedAt: Instant,
    tags: seq<string>,
    userId: Int32)

  datatype ListPostsResponse = ListPostsResponse(posts: seq<PostDataResponse>)

  datatype PaginatedListRequest = PaginatedListRequest(page: Int32, pageSize: Int32)

  datatype PostCommentRequest = PostCommentRequest(postId: Int32, commentDescription: string)

  datatype CommentDataResponse = CommentDataResponse(
    commentId: Int32,
    postId: Int32,
    userId: Int32,
    commentDescription: string)

  datatype ListCommentsResponse = ListCommentsResponse(comments: seq<CommentDataResponse>)

  datatype CountResponse = CountResponse(count: Int32)

  datatype DynamicResponse = DynamicResponse(count: CountResponse, data: Instant)

  datatype DynamicListResponse = DynamicListResponse(dynamic: seq<DynamicResponse>)

  datatype TopTenParameter = TopTenParameter(par: string)

  datatype TopTenPostsResponse = TopTenPostsResponse(posts: seq<PostID>)

  datatype UserID = UserID(userId: Int32)

  datatype TopTenUsersResponse = TopTenUsersResponse(users: seq<UserID>)
}
