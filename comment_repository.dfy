/**
 * The comment repository: loads a post's comments and posts new ones,
 * reporting any thrown error to the error handler and giving the caller
 * an empty list or no comment instead ("fail soft").
 *
 * The API calls are parameters (how each call ends, for the arguments it
 * is given), and so is `hierarchicalRepresentation`, whose tree-building
 * is not part of this model. Error reports are returned beside the value.
 */
module CommentRepository {
  import opened Wrappers

  /** A comment as the API returns it; the repository passes it through untouched. */
  datatype ApiCommentView = ApiCommentView(id: int, parentId: Option<int>, postId: int, content: string)

  datatype HierarchicalComment = HierarchicalComment(comment: ApiCommentView, children: seq<HierarchicalComment>)

  /** The error a failing API call throws, kept whole as the report's underlying error. */
  datatype ThrownError = ThrownError(description: string)

  /** What `errorHandler.handle` receives. */
  datatype ErrorReport = ErrorReport(title: string, message: string, underlyingError: ThrownError)

  datatype CreateCommentRequest = CreateCommentRequest(content: string, languageId: Option<int>, parentId: Option<int>, postId: int)

  datatype CommentResponse = CommentResponse(commentView: ApiCommentView)

  /** A value handed to the caller, with the error reports made on the way. */
  datatype Handled<T> = Handled(value: T, reports: seq<ErrorReport>)

  const LoadFailedTitle := "Failed to load comments"
  const LoadFailedMessage := "Please refresh to try again"
  const PostFailedTitle := "Failed to post comment"
  const PostFailedMessage := "Please try again"

  /** `comments(for:)`. */
  function Comments(
    postId: int,
    loadComments: int -> Result<seq<ApiCommentView>, ThrownError>,
    hierarchicalRepresentation: seq<ApiCommentView> -> seq<HierarchicalComment>
  ): (r: Handled<seq<HierarchicalComment>>)
    ensures |r.reports| <= 1
    ensures r.reports != [] <==> loadComments(postId).Threw?
    ensures loadComments(postId).Returned? ==> r.value == hierarchicalRepresentation(loadComments(postId).value)
    ensures loadComments(postId).Threw? ==>
      r.value == [] && r.reports == [ErrorReport(LoadFailedTitle, LoadFailedMessage, loadComments(postId).error)]
  {
    match loadComments(postId)
    case Returned(comments) => Handled(hierarchicalRepresentation(comments), [])
    case Threw(error) => Handled([], [ErrorReport(LoadFailedTitle, LoadFailedMessage, error)])
  }

  /** `postComment(content:languageId:parentId:postId:)`. */
  function PostComment(
    content: string,
    languageId: Option<int>,
    parentId: Option<int>,
    postId: int,
    createComment: CreateCommentRequest -> Result<CommentResponse, ThrownError>
  ): (r: Handled<Option<HierarchicalComment>>)
    ensures |r.reports| <= 1
    ensures r.value.Some? <==> r.reports == []
    ensures var sent := createComment(CreateCommentRequest(content, languageId, parentId, postId));
      (sent.Returned? ==> r.value == Some(HierarchicalComment(sent.value.commentView, []))) &&
      (sent.Threw? ==> r.value == None && r.reports == [ErrorReport(PostFailedTitle, PostFailedMessage, sent.error)])
  {
    match createComment(CreateCommentRequest(content, languageId, parentId, postId))
    case Returned(response) => Handled(Some(HierarchicalComment(response.commentView, [])), [])
    case Threw(error) => Handled(None, [ErrorReport(PostFailedTitle, PostFailedMessage, error)])
  }

  /**
   * The value alone does not tell a failed load from a post with no
   * comments: only the error report does.
   */
  lemma FailedLoadLooksEmpty(
    postId: int,
    failing: int -> Result<seq<ApiCommentView>, ThrownError>,
    empty: int -> Result<seq<ApiCommentView>, ThrownError>,
    hierarchicalRepresentation: seq<ApiCommentView> -> seq<HierarchicalComment>
  )
    requires failing(postId).Threw?
    requires empty(postId) == Returned([]) && hierarchicalRepresentation([]) == []
    ensures Comments(postId, failing, hierarchicalRepresentation).value == Comments(postId, empty, hierarchicalRepresentation).value
    ensures Comments(postId, failing, hierarchicalRepresentation).reports != Comments(postId, empty, hierarchicalRepresentation).reports
  {
  }
}
