# Article store model

A Dafny model of the article store of a Vuex-based front end
(`src/store/article.module.js`). The store holds one record `state` with
three fields: `article` (author, title, description, body, tag list),
`comments` and `images`. Getters return these fields verbatim. Mutations
replace a field, append a tag to or remove a tag from the draft's tag list,
or reset everything to `initialState`. Actions call the backend services
and commit the replies.

The model is functional. Every mutation is a pure state transformer, and
every action is a function that returns the new state, the ordered list of
events it causes, and the value its promise resolves to. The events are
service calls, commits, the list-module commit and dispatches. A service's
reply is a parameter of the action.

The store has one real subtlety, and the model makes it explicit.
`state = { ...initialState }` is a shallow copy, so `state.article` starts
out as the very object `initialState.article`. `RESET_STATE` points it back
at that object. `ArticleState.State` therefore keeps the contents of that
shared object (`shared`) apart from the reference that `state.article` holds
(`SharedDefault`, or `Plain(article)` for any other article). `TAG_ADD` and
`TAG_REMOVE` assign `state.article.tagList`. While the reference is
`SharedDefault`, that assignment writes into `initialState`.

Files:
- `tags.dfy` (`Tags`): append and remove-all on tag lists. `RemoveAll` is characterised as a subsequence that keeps the counts of all other elements, and the characterisation is proved unique.
- `state.dfy` (`ArticleState`): records, the state, the shared default object, the initial state, the getters.
- `mutations.dfy` (`Mutations`): the six mutations, replaying commits, what reset does after any history, and the corrected reset.
- `actions.dfy` (`Actions`): the actions with the services abstracted away.
- `dispatcher.dfy` (`Dispatcher`): the action table as one reducer over a tagged request type.

## Model

| member | source | states |
|---|---|---|
| ArticleState.InitialStateIsEmpty | src/store/article.module.js:34-46 | At load the article has an empty author record, empty title, description and body, and no tags. Comments and images are empty, and `state.article` is the object `initialState.article`. |
| ArticleState.Init | src/store/article.module.js:34-46 | The load-time state: `state.article` is the object `initialState.article` itself (shallow copy), which holds the literal defaults. Comments and images are empty. |
| ArticleState.GetArticle | src/store/article.module.js:141-143 | The `article` getter returns the object `state.article` refers to: the current contents of `initialState.article` while shared, otherwise the stored article. |
| ArticleState.GetComments | src/store/article.module.js:144-146 | The `comments` getter returns `state.comments` verbatim. |
| ArticleState.GetImages | src/store/article.module.js:147-149 | The `images` getter returns `state.images` verbatim. |
| Tags.Append | src/store/article.module.js:128 | `concat([tag])` grows the list by one. It keeps the old list as a prefix and puts the tag last, even if the tag is already present. |
| Tags.RemoveAll | src/store/article.module.js:131 | After `filter(t => t !== tag)` the tag does not occur. The result is a subsequence of the input. Every other tag keeps its count, and the length drops by the number of occurrences. Removing an absent tag leaves the list unchanged. |
| Tags.RemoveAllUnique | src/store/article.module.js:131 | Converse: any subsequence that has no occurrence of the tag and keeps every other count equals the filter's result. So exactly the occurrences are removed, in order. |
| Tags.RemoveAllIdempotent | src/store/article.module.js:130-132 | Removing a tag twice equals removing it once. |
| Tags.AppendThenRemove | src/store/article.module.js:127-132 | If a tag was not in the list, appending it and then removing it returns the original list. |
| Tags.AppendThenRemoveDropsEarlierCopies | src/store/article.module.js:127-132 | In general, append-then-remove equals plain remove, so earlier copies of the tag are lost too. |
| Mutations.WithArticle | src/store/article.module.js:118-120 | `SET_ARTICLE`: `state.article` now refers to exactly the given object, which may be `initialState.article` itself. The `article` getter returns what that object holds. The comments getter, the images getter and `initialState` are unchanged. |
| Mutations.WithComments | src/store/article.module.js:121-123 | `SET_COMMENTS`: the `comments` getter returns the given list verbatim. Article, images and `initialState` are unchanged. |
| Mutations.WithImages | src/store/article.module.js:124-126 | `SET_IMAGES`: the `images` getter returns the given list verbatim. Article, comments and `initialState` are unchanged. |
| Mutations.WithTagList | src/store/article.module.js:128 | Assigning `state.article.tagList` changes only the tag list of the current article. It writes into `initialState.article` exactly when `state.article` is that object. |
| Mutations.TagAdded | src/store/article.module.js:127-129 | `TAG_ADD`: the tag list becomes the old one followed by the tag. Other article fields, comments and images are unchanged, and `state.article` keeps referring to the same object. If that object is `initialState.article`, the new list is written into it and its other fields are kept; otherwise `initialState` is untouched. |
| Mutations.TagRemoved | src/store/article.module.js:130-132 | `TAG_REMOVE`: no occurrence of the tag is left, the order is kept, and all other counts are kept. An absent tag leaves the whole state unchanged. Other fields are unchanged, and `state.article` keeps referring to the same object. If that object is `initialState.article`, the filtered list is written into it and its other fields are kept; otherwise `initialState` is untouched. |
| Mutations.TagRemoveIdempotent | src/store/article.module.js:130-132 | Applying `TAG_REMOVE` twice with the same tag gives the same whole state as applying it once. |
| Mutations.TagAddThenRemove | src/store/article.module.js:127-132 | If the tag was not present, `TAG_ADD t` followed by `TAG_REMOVE t` restores the whole state, `initialState` included. |
| Mutations.Reset | src/store/article.module.js:133-137 | `RESET_STATE`: the article becomes the current contents of `initialState.article` and is shared again. Comments and images become empty. If `initialState` is otherwise valid, the result is the load-time state if and only if the shared tag list is empty. |
| Mutations.Apply | src/store/article.module.js:117-138 | No mutation changes any field of `initialState.article` other than its tag list. |
| Mutations.ApplyAll | src/store/article.module.js:117-138 | The same holds across any sequence of commits. |
| Mutations.ApplySharedTags | src/store/article.module.js:117-138 | One commit changes the tag list of `initialState.article` only when it is a tag edit made while `state.article` is that object, and then by exactly that edit. |
| Mutations.DefaultTagsRecordSharedEdits | src/store/article.module.js:127-137 | After any commits, the tag list of `initialState.article` is the replay of exactly those tag edits made while `state.article` was that object. |
| Mutations.ResetShowsSharedEdits | src/store/article.module.js:133-137 | After any history since load, the tag list that `RESET_STATE` leaves is that replay, not an empty list. Comments and images are empty. |
| Mutations.ResetRestoresInitWithoutSharedEdits | src/store/article.module.js:133-137 | If no tag edit hit the shared object, reset yields exactly the load-time state. |
| Mutations.ResetKeepsTagAddedAtLoad | src/store/article.module.js:46 | Counterexample: after load, `TAG_ADD t` followed by `RESET_STATE` leaves the tag list `[t]`, so the state differs from the load-time state. |
| Mutations.FreshInit | src/store/article.module.js:34-46 | Corrected load state: `state` owns a copy of the empty default article, and `initialState` is empty. |
| Mutations.FreshReset | src/store/article.module.js:133-137 | Corrected reset: the getters show an empty article and empty lists, and `state.article` is not the shared object. |
| Mutations.ApplyFixed | src/store/article.module.js:117-138 | Corrected commit: a reset shows the empty defaults and leaves `state.article` unshared. Every other mutation behaves as written. While `state.article` is not `initialState.article` and is not pointed back at it, `initialState.article` is not written. |
| Mutations.ApplyAllFixed | src/store/article.module.js:117-138 | Corrected commit sequence: any history that ends in a reset shows the empty defaults, whatever came before. |
| Mutations.FixedDefaultsNeverWritten | src/store/article.module.js:34-46 | With the corrected reset and no handle on the default object, no history writes into `initialState.article`. |
| Mutations.FixedResetRestoresDefaults | src/store/article.module.js:133-137 | With the corrected reset, resetting after any history gives back the load-time state. |
| Actions.FetchArticle | src/store/article.module.js:49-57 | If `prevArticle` is defined, no service call is made, it is committed as the article, and the action returns `undefined`. `state.article` then refers to `prevArticle` itself, which re-shares `initialState.article` when that is what was passed. Otherwise exactly one `get(slug)` is made first, the reply's article is committed as a new object, and `data` is returned. Either way the only store effect is that one `SET_ARTICLE`, and `initialState` is untouched. |
| Actions.FetchComments | src/store/article.module.js:58-62 | One `CommentsService.get(slug)`. Its comments are committed with a single `SET_COMMENTS` and returned. The article reference, images and `initialState` are unchanged. |
| Actions.FetchImages | src/store/article.module.js:63-67 | One `ImagesService.get(slug)`. Its images are committed with a single `SET_IMAGES` and returned. The article reference, comments and `initialState` are unchanged. |
| Actions.GenerateImages | src/store/article.module.js:68-76 | One `ImagesService.generate(id, slug, body)`. Its images are committed with a single `SET_IMAGES` and returned. The article reference, comments and `initialState` are unchanged. |
| Actions.CommentCreate | src/store/article.module.js:77-80 | One post call, then a `FETCH_COMMENTS` dispatch for the same slug. Nothing is committed and the state is unchanged. |
| Actions.CommentDestroy | src/store/article.module.js:81-84 | One destroy call, then a `FETCH_COMMENTS` dispatch for the same slug. Nothing is committed and the state is unchanged. |
| Actions.FavoriteUpdate | src/store/article.module.js:85-95 | Shared tail of both favorite actions: the call comes first. Then `UPDATE_ARTICLE_IN_LIST` and `SET_ARTICLE` are committed with the identical reply article, in that order. `state.article` becomes a new object holding that article, comments, images and `initialState` are unchanged, and `undefined` is returned. |
| Actions.FavoriteAdd | src/store/article.module.js:85-89 | One `FavoriteService.add(slug)`, then the list update and `SET_ARTICLE` with the same article, in order. `state.article` becomes a new object holding the reply's article, nothing else changes, and `undefined` is returned. |
| Actions.FavoriteRemove | src/store/article.module.js:90-95 | One `FavoriteService.remove(slug)`, then the list update and `SET_ARTICLE` with the same article, in order. `state.article` becomes a new object holding the reply's article, nothing else changes, and `undefined` is returned. |
| Actions.CommitOnly | src/store/article.module.js:105-113 | A local action commits exactly its one mutation and makes no call. |
| Actions.EditAddTag | src/store/article.module.js:105-107 | Commits exactly `TAG_ADD` with no call and no other effect, and returns `undefined`. The new state is `TAG_ADD` applied: the tag list gains the tag at the end, written into `initialState.article` while shared. |
| Actions.EditRemoveTag | src/store/article.module.js:108-110 | Commits exactly `TAG_REMOVE` with no call and no other effect, and returns `undefined`. The new state is `TAG_REMOVE` applied: the tag list is filtered, in `initialState.article` while shared. |
| Actions.ResetArticleState | src/store/article.module.js:111-113 | Commits exactly `RESET_STATE` with no call and no other effect, and returns `undefined`. `state.article` refers to the object `initialState.article` again, which is left as it was, and the lists become empty. |
| Actions.TagEditExample | src/store/article.module.js:127-132 | Starting from `["rust"]`, adding "go" gives `["rust", "go"]`. Then removing "rust" gives `["go"]`. |
| Dispatcher.Run | src/store/article.module.js:48-114 | For every request, the new state is the old state with the request's own commits replayed in order. No state change bypasses a commit. |
| Dispatcher.RunCallsAtMostOnce | src/store/article.module.js:48-114 | Every action makes at most one service call. It makes none exactly for cached fetches, tag edits and reset. |
| Dispatcher.RunRefetchesAfterCommentChange | src/store/article.module.js:77-84 | Comment creation and deletion, and only they, dispatch a comments re-fetch, and for their own slug. |

## Findings

| source | as written | input that shows it | evidently intended | confidence | as-written member | corrected member |
|---|---|---|---|---|---|---|
| src/store/article.module.js:46 | `state` is a shallow copy of `initialState`, so `state.article` is `initialState.article`. `TAG_ADD` and `TAG_REMOVE` assign that object's `tagList`, and `RESET_STATE` re-installs the same object. | From load, `ARTICLE_EDIT_ADD_TAG "x"` then `ARTICLE_RESET_STATE`: the tag list is `["x"]` | Reset restores the empty defaults whatever happened before | high; not executed | Mutations.ResetKeepsTagAddedAtLoad | Mutations.FixedResetRestoresDefaults |

The corrected definitions are `Mutations.FreshInit`, `Mutations.FreshReset` and `Mutations.ApplyAllFixed`. In them, `state` always gets its own copy of the default article. `Actions` and `Dispatcher` model the module as written, so `ARTICLE_RESET_STATE` there commits the as-written `RESET_STATE`. `Mutations.ResetShowsSharedEdits` states exactly what that reset leaves behind.

## Left out

- `ARTICLE_PUBLISH`, `ARTICLE_EDIT`, `ARTICLE_DELETE` (src/store/article.module.js:96-104): each only passes the current article or a slug to the backend and returns its promise. There is nothing to state beyond the call itself.
- Backend services: they are not part of this model. Each reply is a parameter of the action, and each request is recorded as a `Call` event.
- Failing requests: a rejected service call propagates, and the action then commits nothing. The model covers only the successful path.
- Asynchrony: `FETCH_COMMENTS` dispatched by the comment actions is not awaited. The model records the dispatch as an event and does not interleave its later effects.
- `UPDATE_ARTICLE_IN_LIST` belongs to the article-list module, which is not part of this model. It is recorded as an event only.
- Vuex plumbing: `commit`, `dispatch`, `{ root: true }` routing and the single-payload convention are not modelled. The actions take their arguments as the functions declare them (`prevArticle`, the three `GENERATE_IMAGES` arguments).
- `Vue.set` in `RESET_STATE` is modelled as a plain field assignment. Reactivity is not modelled.
- Sharing between other objects: an article stored with `SET_ARTICLE` (other than `initialState.article`) is modelled as a value. Assigning its `tagList` also changes that object wherever else it is held, and that effect is not modelled.
- Article fields beyond author, title, description, body and tag list (slug, favorite flags, timestamps) are not modelled. Authors, comments and images are opaque records of string fields.
- Actions.FetchArticle: a defined `prevArticle` is always an article reference in the model. Other defined values such as `null`, which the `!== undefined` test also lets through, are not modelled.
- Tags are strings compared by value. Non-string tags, for which `!==` compares identity, are not modelled.
- `src/store/settings.module.js`: its actions wrap the same service calls, and its mutations are the same three setters. Its initial state spells `images` as `iamges`.
