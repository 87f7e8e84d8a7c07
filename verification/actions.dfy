/**
 The store's actions with the backend abstracted away. A service call is
 recorded as an event and its reply is a parameter (the value the backend
 would answer with); each action yields the new state, the events it caused
 in order, and the value it resolves to.
 */
module Actions {
  import Tags
  import opened ArticleState
  import opened Mutations

  /** A JavaScript argument that may be `undefined`. */
  datatype Option<T> = None | Some(value: T)

  /** The `data` of a reply that carries one article (`ArticlesService.get`, `FavoriteService.add/remove`). */
  datatype ArticleData = ArticleData(article: Article)

  /** A request to one of the backend services. */
  datatype ServiceCall =
    | ArticlesGet(slug: string)
    | CommentsGet(slug: string)
    | CommentsPost(slug: string, comment: Record)
    | CommentsDestroy(slug: string, commentId: string)
    | ImagesGet(slug: string)
    | ImagesGenerate(articleId: string, slug: string, body: string)
    | FavoritesAdd(slug: string)
    | FavoritesRemove(slug: string)

  /** Something an action does, in the order it does it. */
  datatype Event =
    | Call(call: ServiceCall)
    | Commit(mutation: Mutation)
    | CommitListUpdate(article: Article) // `UPDATE_ARTICLE_IN_LIST`, a mutation of the article-list module
    | DispatchFetchComments(slug: string)

  /** What an action's promise resolves to. */
  datatype Returned = Undefined | Data(data: ArticleData) | Items(items: seq<Record>)

  datatype Outcome = Outcome(state: State, events: seq<Event>, returned: Returned)

  /** The service calls among `events`, in order. */
  function Calls(events: seq<Event>): seq<ServiceCall>
    decreases |events|
  {
    if events == [] then []
    else (if events[0].Call? then [events[0].call] else []) + Calls(events[1..])
  }

  /** The events that are not service calls, in order. */
  function StoreEffects(events: seq<Event>): seq<Event>
    decreases |events|
  {
    if events == [] then []
    else (if events[0].Call? then [] else [events[0]]) + StoreEffects(events[1..])
  }

  /** This module's own commits among `events`, in order. */
  function Commits(events: seq<Event>): seq<Mutation>
    decreases |events|
  {
    if events == [] then []
    else (if events[0].Commit? then [events[0].mutation] else []) + Commits(events[1..])
  }

  /** The three filters take an event list apart from its first element. */
  lemma FiltersOfCons(e: Event, rest: seq<Event>)
    ensures Calls([e] + rest) == (if e.Call? then [e.call] else []) + Calls(rest)
    ensures StoreEffects([e] + rest) == (if e.Call? then [] else [e]) + StoreEffects(rest)
    ensures Commits([e] + rest) == (if e.Commit? then [e.mutation] else []) + Commits(rest)
  {
    assert ([e] + rest)[1..] == rest;
  }

  /** The filters of a two-event list. */
  lemma Filters2(a: Event, b: Event)
    ensures Calls([a, b]) == Calls([a]) + Calls([b])
    ensures StoreEffects([a, b]) == StoreEffects([a]) + StoreEffects([b])
    ensures Commits([a, b]) == Commits([a]) + Commits([b])
  {
    FiltersOfCons(a, [b]);
    FiltersOfCons(a, []);
    assert [a, b] == [a] + [b];
  }

  /** The filters of a three-event list. */
  lemma Filters3(a: Event, b: Event, c: Event)
    ensures Calls([a, b, c]) == Calls([a]) + Calls([b]) + Calls([c])
    ensures StoreEffects([a, b, c]) == StoreEffects([a]) + StoreEffects([b]) + StoreEffects([c])
    ensures Commits([a, b, c]) == Commits([a]) + Commits([b]) + Commits([c])
  {
    FiltersOfCons(a, [b, c]);
    FiltersOfCons(a, []);
    Filters2(b, c);
    assert [a, b, c] == [a] + [b, c];
  }

  /**
   `FETCH_ARTICLE`: cache or fetch. A defined `prevArticle` is committed as
   it is, without a request, and the action resolves to `commit`'s
   `undefined`; otherwise one `ArticlesService.get(slug)` is made, its
   article is committed and its `data` is returned.
   */
  function FetchArticle(s: State, slug: string, prev: Option<ArticleRef>, reply: ArticleData): (o: Outcome)
    ensures prev.Some? ==> Calls(o.events) == [] && GetArticle(o.state) == Deref(s, prev.value)
    ensures prev.Some? ==> o.returned == Undefined
    ensures prev.Some? ==> o.state == WithArticle(s, prev.value)
    ensures prev.None? ==> o.state == WithArticle(s, Plain(reply.article))
    ensures prev.Some? ==> Commits(o.events) == [SetArticle(prev.value)]
    ensures prev.Some? ==> StoreEffects(o.events) == [Commit(SetArticle(prev.value))]
    ensures prev.None? ==> StoreEffects(o.events) == [Commit(SetArticle(Plain(reply.article)))]
    ensures prev.None? ==> Commits(o.events) == [SetArticle(Plain(reply.article))]
    ensures prev.None? ==> Calls(o.events) == [ArticlesGet(slug)] && o.events[0] == Call(ArticlesGet(slug))
    ensures prev.None? ==> GetArticle(o.state) == reply.article && o.returned == Data(reply)
    ensures GetComments(o.state) == GetComments(s) && GetImages(o.state) == GetImages(s)
  {
    match prev
    case Some(ref) =>
      FiltersOfCons(Commit(SetArticle(ref)), []);
      Outcome(WithArticle(s, ref), [Commit(SetArticle(ref))], Undefined)
    case None =>
      var ref := Plain(reply.article);
      Filters2(Call(ArticlesGet(slug)), Commit(SetArticle(ref)));
      Outcome(WithArticle(s, ref), [Call(ArticlesGet(slug)), Commit(SetArticle(ref))], Data(reply))
  }

  /** `FETCH_COMMENTS`: one `CommentsService.get(slug)`; its comments are stored and returned. */
  function FetchComments(s: State, slug: string, comments: seq<Record>): (o: Outcome)
    ensures Calls(o.events) == [CommentsGet(slug)] && o.events[0] == Call(CommentsGet(slug))
    ensures GetComments(o.state) == comments && o.returned == Items(comments)
    ensures StoreEffects(o.events) == [Commit(SetComments(comments))] && Commits(o.events) == [SetComments(comments)]
    ensures GetArticle(o.state) == GetArticle(s) && GetImages(o.state) == GetImages(s)
    ensures o.state == WithComments(s, comments)
  {
    Filters2(Call(CommentsGet(slug)), Commit(SetComments(comments)));
    Outcome(WithComments(s, comments), [Call(CommentsGet(slug)), Commit(SetComments(comments))], Items(comments))
  }

  /** `FETCH_IMAGES`: one `ImagesService.get(slug)`; its images are stored and returned. */
  function FetchImages(s: State, slug: string, images: seq<Record>): (o: Outcome)
    ensures Calls(o.events) == [ImagesGet(slug)] && o.events[0] == Call(ImagesGet(slug))
    ensures StoreEffects(o.events) == [Commit(SetImages(images))] && Commits(o.events) == [SetImages(images)]
    ensures GetImages(o.state) == images && o.returned == Items(images)
    ensures GetArticle(o.state) == GetArticle(s) && GetComments(o.state) == GetComments(s)
    ensures o.state == WithImages(s, images)
  {
    Filters2(Call(ImagesGet(slug)), Commit(SetImages(images)));
    Outcome(WithImages(s, images), [Call(ImagesGet(slug)), Commit(SetImages(images))], Items(images))
  }

  /** `GENERATE_IMAGES`: one `ImagesService.generate(id, slug, body)`; its images are stored and returned. */
  function GenerateImages(s: State, articleId: string, slug: string, body: string, images: seq<Record>): (o: Outcome)
    ensures Calls(o.events) == [ImagesGenerate(articleId, slug, body)]
    ensures o.events[0] == Call(ImagesGenerate(articleId, slug, body))
    ensures StoreEffects(o.events) == [Commit(SetImages(images))] && Commits(o.events) == [SetImages(images)]
    ensures GetImages(o.state) == images && o.returned == Items(images)
    ensures GetArticle(o.state) == GetArticle(s) && GetComments(o.state) == GetComments(s)
    ensures o.state == WithImages(s, images)
  {
    Filters2(Call(ImagesGenerate(articleId, slug, body)), Commit(SetImages(images)));
    Outcome(WithImages(s, images), [Call(ImagesGenerate(articleId, slug, body)), Commit(SetImages(images))], Items(images))
  }

  /**
   `COMMENT_CREATE`: post the comment, then dispatch `FETCH_COMMENTS` for the
   same slug without awaiting it; the state is not touched here (no
   optimistic insert).
   */
  function CommentCreate(s: State, slug: string, comment: Record): (o: Outcome)
    ensures Calls(o.events) == [CommentsPost(slug, comment)] && o.events[0] == Call(CommentsPost(slug, comment))
    ensures StoreEffects(o.events) == [DispatchFetchComments(slug)] && Commits(o.events) == []
    ensures o.state == s && o.returned == Undefined
  {
    Filters2(Call(CommentsPost(slug, comment)), DispatchFetchComments(slug));
    Outcome(s, [Call(CommentsPost(slug, comment)), DispatchFetchComments(slug)], Undefined)
  }

  /** `COMMENT_DESTROY`: delete the comment, then dispatch `FETCH_COMMENTS` for the same slug. */
  function CommentDestroy(s: State, slug: string, commentId: string): (o: Outcome)
    ensures Calls(o.events) == [CommentsDestroy(slug, commentId)] && o.events[0] == Call(CommentsDestroy(slug, commentId))
    ensures StoreEffects(o.events) == [DispatchFetchComments(slug)] && Commits(o.events) == []
    ensures o.state == s && o.returned == Undefined
  {
    Filters2(Call(CommentsDestroy(slug, commentId)), DispatchFetchComments(slug));
    Outcome(s, [Call(CommentsDestroy(slug, commentId)), DispatchFetchComments(slug)], Undefined)
  }

  /**
   The common tail of `FAVORITE_ADD` and `FAVORITE_REMOVE`: the article in
   the reply goes first to the article list, then to the single-article view.
   */
  function FavoriteUpdate(s: State, call: ServiceCall, reply: ArticleData): (o: Outcome)
    ensures Calls(o.events) == [call] && o.events[0] == Call(call)
    ensures Commits(o.events) == [SetArticle(Plain(reply.article))]
    ensures StoreEffects(o.events) == [CommitListUpdate(reply.article), Commit(SetArticle(Plain(reply.article)))]
    ensures GetArticle(o.state) == reply.article
    ensures GetComments(o.state) == GetComments(s) && GetImages(o.state) == GetImages(s)
    ensures o.state == WithArticle(s, Plain(reply.article))
    ensures o.returned == Undefined
  {
    var ref := Plain(reply.article);
    Filters3(Call(call), CommitListUpdate(reply.article), Commit(SetArticle(ref)));
    Outcome(WithArticle(s, ref), [Call(call), CommitListUpdate(reply.article), Commit(SetArticle(ref))], Undefined)
  }

  /** `FAVORITE_ADD`: one `FavoriteService.add(slug)`, then both views get the reply's article. */
  function FavoriteAdd(s: State, slug: string, reply: ArticleData): (o: Outcome)
    ensures Calls(o.events) == [FavoritesAdd(slug)] && o.events[0] == Call(FavoritesAdd(slug))
    ensures StoreEffects(o.events) == [CommitListUpdate(reply.article), Commit(SetArticle(Plain(reply.article)))]
    ensures Commits(o.events) == [SetArticle(Plain(reply.article))]
    ensures GetArticle(o.state) == reply.article
    ensures GetComments(o.state) == GetComments(s) && GetImages(o.state) == GetImages(s)
    ensures o.state == WithArticle(s, Plain(reply.article))
    ensures o.returned == Undefined
  {
    FavoriteUpdate(s, FavoritesAdd(slug), reply)
  }

  /** `FAVORITE_REMOVE`: one `FavoriteService.remove(slug)`, then both views get the reply's article. */
  function FavoriteRemove(s: State, slug: string, reply: ArticleData): (o: Outcome)
    ensures Calls(o.events) == [FavoritesRemove(slug)] && o.events[0] == Call(FavoritesRemove(slug))
    ensures StoreEffects(o.events) == [CommitListUpdate(reply.article), Commit(SetArticle(Plain(reply.article)))]
    ensures Commits(o.events) == [SetArticle(Plain(reply.article))]
    ensures GetArticle(o.state) == reply.article
    ensures GetComments(o.state) == GetComments(s) && GetImages(o.state) == GetImages(s)
    ensures o.state == WithArticle(s, Plain(reply.article))
    ensures o.returned == Undefined
  {
    FavoriteUpdate(s, FavoritesRemove(slug), reply)
  }

  /** A local action that only commits one mutation: no request is made. */
  function CommitOnly(s: State, m: Mutation): (o: Outcome)
    ensures Calls(o.events) == [] && StoreEffects(o.events) == [Commit(m)] && Commits(o.events) == [m]
    ensures o.state == Apply(s, m) && o.returned == Undefined
  {
    FiltersOfCons(Commit(m), []);
    Outcome(Apply(s, m), [Commit(m)], Undefined)
  }

  /** `ARTICLE_EDIT_ADD_TAG`: commit `TAG_ADD`; no request. */
  function EditAddTag(s: State, tag: Tags.Tag): (o: Outcome)
    ensures Calls(o.events) == [] && Commits(o.events) == [TagAdd(tag)]
    ensures GetArticle(o.state).tagList == GetArticle(s).tagList + [tag]
    ensures o.state == TagAdded(s, tag)
    ensures StoreEffects(o.events) == [Commit(TagAdd(tag))] && o.returned == Undefined
  {
    var o := CommitOnly(s, TagAdd(tag));
    assert o.state == TagAdded(s, tag);
    o
  }

  /** `ARTICLE_EDIT_REMOVE_TAG`: commit `TAG_REMOVE`; no request. */
  function EditRemoveTag(s: State, tag: Tags.Tag): (o: Outcome)
    ensures Calls(o.events) == [] && Commits(o.events) == [TagRemove(tag)]
    ensures GetArticle(o.state).tagList == Tags.RemoveAll(GetArticle(s).tagList, tag)
    ensures o.state == TagRemoved(s, tag)
    ensures StoreEffects(o.events) == [Commit(TagRemove(tag))] && o.returned == Undefined
  {
    var o := CommitOnly(s, TagRemove(tag));
    assert o.state == TagRemoved(s, tag);
    o
  }

  /** `ARTICLE_RESET_STATE`: commit `RESET_STATE`; no request. */
  function ResetArticleState(s: State): (o: Outcome)
    ensures Calls(o.events) == [] && Commits(o.events) == [ResetState]
    ensures GetArticle(o.state) == s.shared && GetComments(o.state) == [] && GetImages(o.state) == []
    ensures o.state.article == SharedDefault && o.state.shared == s.shared
    ensures o.state == Reset(s)
    ensures StoreEffects(o.events) == [Commit(ResetState)] && o.returned == Undefined
  {
    CommitOnly(s, ResetState)
  }

  /** A worked example: add "go" to ["rust"], then remove "rust". */
  lemma TagEditExample(s: State)
    requires GetArticle(s).tagList == ["rust"]
    ensures GetArticle(EditAddTag(s, "go").state).tagList == ["rust", "go"]
    ensures GetArticle(EditRemoveTag(EditAddTag(s, "go").state, "rust").state).tagList == ["go"]
  {
    var s1 := EditAddTag(s, "go").state;
    assert GetArticle(s1).tagList == ["rust", "go"];
    assert Tags.RemoveAll(["rust", "go"], "rust") == ["go"] by {
      assert ["rust", "go"][1..] == ["go"];
      assert ["go"][1..] == [];
      assert "go" != "rust" by { assert "go"[0] != "rust"[0]; }
    }
  }
}
