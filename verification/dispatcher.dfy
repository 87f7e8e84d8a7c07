/**
 The action table as one reducer: a request names an action and carries its
 payload, the backend's replies are parameters, and running a request gives
 the action's outcome.
 */
module Dispatcher {
  import Tags
  import opened ArticleState
  import opened Mutations
  import A = Actions

  /** One entry of the action table with its arguments. */
  datatype Request =
    | FetchArticle(slug: string, prev: A.Option<ArticleRef>)
    | FetchComments(slug: string)
    | FetchImages(slug: string)
    | GenerateImages(articleId: string, slug: string, body: string)
    | CommentCreate(slug: string, comment: Record)
    | CommentDestroy(slug: string, commentId: string)
    | FavoriteAdd(slug: string)
    | FavoriteRemove(slug: string)
    | EditAddTag(tag: Tags.Tag)
    | EditRemoveTag(tag: Tags.Tag)
    | ResetArticleState

  /** What each service would answer to the request at hand. */
  datatype Backend = Backend(
    article: A.ArticleData,
    comments: seq<Record>,
    images: seq<Record>,
    generated: seq<Record>,
    favorite: A.ArticleData)

  /** The requests that are handled locally, without a service call. */
  predicate IsLocal(req: Request)
  {
    || (req.FetchArticle? && req.prev.Some?)
    || req.EditAddTag? || req.EditRemoveTag? || req.ResetArticleState?
  }

  /** A single mutation applied as a one-element commit sequence. */
  lemma ApplyAllOne(s: State, m: Mutation)
    ensures ApplyAll(s, [m]) == Apply(s, m)
  {
    assert [m][1..] == [];
  }

  /**
   Running a request. The state changes only through this module's commits
   listed in the events.
   */
  function Run(s: State, req: Request, b: Backend): (o: A.Outcome)
    ensures o.state == ApplyAll(s, A.Commits(o.events))
  {
    match req
    case FetchArticle(slug, prev) =>
      var o := A.FetchArticle(s, slug, prev, b.article);
      ApplyAllOne(s, A.Commits(o.events)[0]);
      o
    case FetchComments(slug) =>
      var o := A.FetchComments(s, slug, b.comments);
      ApplyAllOne(s, SetComments(b.comments));
      o
    case FetchImages(slug) =>
      var o := A.FetchImages(s, slug, b.images);
      ApplyAllOne(s, SetImages(b.images));
      o
    case GenerateImages(id, slug, body) =>
      var o := A.GenerateImages(s, id, slug, body, b.generated);
      ApplyAllOne(s, SetImages(b.generated));
      o
    case CommentCreate(slug, comment) => A.CommentCreate(s, slug, comment)
    case CommentDestroy(slug, commentId) => A.CommentDestroy(s, slug, commentId)
    case FavoriteAdd(slug) =>
      var o := A.FavoriteAdd(s, slug, b.favorite);
      ApplyAllOne(s, SetArticle(Plain(b.favorite.article)));
      o
    case FavoriteRemove(slug) =>
      var o := A.FavoriteRemove(s, slug, b.favorite);
      ApplyAllOne(s, SetArticle(Plain(b.favorite.article)));
      o
    case EditAddTag(tag) =>
      ApplyAllOne(s, TagAdd(tag));
      A.EditAddTag(s, tag)
    case EditRemoveTag(tag) =>
      ApplyAllOne(s, TagRemove(tag));
      A.EditRemoveTag(s, tag)
    case ResetArticleState =>
      ApplyAllOne(s, ResetState);
      A.ResetArticleState(s)
  }

  /**
   An action makes at most one service call, and it makes none exactly when
   it is handled locally.
   */
  lemma RunCallsAtMostOnce(s: State, req: Request, b: Backend)
    ensures |A.Calls(Run(s, req, b).events)| <= 1
    ensures A.Calls(Run(s, req, b).events) == [] <==> IsLocal(req)
  {
  }

  /**
   A comments re-fetch for the request's own slug is dispatched by comment
   creation and deletion, and by no other action.
   */
  lemma RunRefetchesAfterCommentChange(s: State, req: Request, b: Backend)
    ensures (req.CommentCreate? || req.CommentDestroy?) ==>
      A.StoreEffects(Run(s, req, b).events) == [A.DispatchFetchComments(req.slug)]
    ensures !(req.CommentCreate? || req.CommentDestroy?) ==>
      forall e :: e in Run(s, req, b).events ==> !e.DispatchFetchComments?
  {
  }
}
