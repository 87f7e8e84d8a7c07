/**
 The store's mutations (`SET_ARTICLE`, `SET_COMMENTS`, `SET_IMAGES`,
 `TAG_ADD`, `TAG_REMOVE`, `RESET_STATE`) as pure state transformers, and what
 the shallow copy of `initialState` does to `RESET_STATE`.
 */
module Mutations {
  import Tags
  import opened ArticleState

  /** A commit of one of this module's mutations, with its payload. */
  datatype Mutation =
    | SetArticle(ref: ArticleRef)
    | SetComments(comments: seq<Record>)
    | SetImages(images: seq<Record>)
    | TagAdd(tag: Tags.Tag)
    | TagRemove(tag: Tags.Tag)
    | ResetState

  /** `SET_ARTICLE`: `state.article` now refers to the given object; nothing else changes. */
  function WithArticle(s: State, ref: ArticleRef): (r: State)
    ensures r.article == ref
    ensures GetArticle(r) == Deref(s, ref)
    ensures GetComments(r) == GetComments(s) && GetImages(r) == GetImages(s)
    ensures r.shared == s.shared
  {
    s.(article := ref)
  }

  /** `SET_COMMENTS`: the comments are replaced verbatim; nothing else changes. */
  function WithComments(s: State, comments: seq<Record>): (r: State)
    ensures GetComments(r) == comments
    ensures GetArticle(r) == GetArticle(s) && GetImages(r) == GetImages(s)
    ensures r.shared == s.shared && r.article == s.article
  {
    s.(comments := comments)
  }

  /** `SET_IMAGES`: the images are replaced verbatim; nothing else changes. */
  function WithImages(s: State, images: seq<Record>): (r: State)
    ensures GetImages(r) == images
    ensures GetArticle(r) == GetArticle(s) && GetComments(r) == GetComments(s)
    ensures r.shared == s.shared && r.article == s.article
  {
    s.(images := images)
  }

  /**
   The assignment `state.article.tagList = tags`. It writes into whatever
   object `state.article` refers to: while that is `initialState.article`, the
   module's default article is what changes.
   */
  function WithTagList(s: State, tags: seq<Tags.Tag>): (r: State)
    ensures GetArticle(r) == GetArticle(s).(tagList := tags)
    ensures GetComments(r) == GetComments(s) && GetImages(r) == GetImages(s)
    ensures r.article.SharedDefault? == s.article.SharedDefault?
    ensures s.article.Plain? ==> r.shared == s.shared
    ensures s.article.SharedDefault? ==> r.shared == s.shared.(tagList := tags)
  {
    match s.article
    case SharedDefault => s.(shared := s.shared.(tagList := tags))
    case Plain(a) => s.(article := Plain(a.(tagList := tags)))
  }

  /** `TAG_ADD`: the tag is appended to the current article's tag list. */
  function TagAdded(s: State, tag: Tags.Tag): (r: State)
    ensures GetArticle(r).tagList == GetArticle(s).tagList + [tag]
    ensures GetArticle(r) == GetArticle(s).(tagList := GetArticle(r).tagList)
    ensures GetComments(r) == GetComments(s) && GetImages(r) == GetImages(s)
    ensures r.article.SharedDefault? == s.article.SharedDefault?
    ensures s.article.Plain? ==> r.shared == s.shared
    ensures s.article.SharedDefault? ==> r.shared == s.shared.(tagList := GetArticle(r).tagList)
    ensures s.article.SharedDefault? ==> r.shared.tagList == s.shared.tagList + [tag]
  {
    WithTagList(s, Tags.Append(GetArticle(s).tagList, tag))
  }

  /** `TAG_REMOVE`: every occurrence of the tag leaves the current article's tag list. */
  function TagRemoved(s: State, tag: Tags.Tag): (r: State)
    ensures GetArticle(r).tagList == Tags.RemoveAll(GetArticle(s).tagList, tag)
    ensures tag !in GetArticle(r).tagList
    ensures Tags.IsSubseq(GetArticle(r).tagList, GetArticle(s).tagList)
    ensures forall u :: u != tag ==>
      multiset(GetArticle(r).tagList)[u] == multiset(GetArticle(s).tagList)[u]
    ensures tag !in GetArticle(s).tagList ==> r == s
    ensures GetArticle(r) == GetArticle(s).(tagList := GetArticle(r).tagList)
    ensures GetComments(r) == GetComments(s) && GetImages(r) == GetImages(s)
    ensures r.article.SharedDefault? == s.article.SharedDefault?
    ensures s.article.Plain? ==> r.shared == s.shared
    ensures s.article.SharedDefault? ==> r.shared == s.shared.(tagList := GetArticle(r).tagList)
  {
    WithTagList(s, Tags.RemoveAll(GetArticle(s).tagList, tag))
  }

  /**
   `RESET_STATE` as written: each field of `state` is set to the same field
   of `initialState`. The article becomes the object `initialState.article`
   again, with whatever tag list earlier tag edits left in it; the result is
   the load-time state exactly when that tag list is empty.
   */
  function Reset(s: State): (r: State)
    ensures GetArticle(r) == s.shared
    ensures GetComments(r) == InitialComments && GetImages(r) == InitialImages
    ensures r.article == SharedDefault && r.shared == s.shared
    ensures Valid(s) ==> (r == Init() <==> s.shared.tagList == [])
  {
    State(s.shared, SharedDefault, InitialComments, InitialImages)
  }

  /** `TAG_REMOVE` twice with the same tag is `TAG_REMOVE` once, for the whole state. */
  lemma TagRemoveIdempotent(s: State, t: Tags.Tag)
    ensures TagRemoved(TagRemoved(s, t), t) == TagRemoved(s, t)
  {
    Tags.RemoveAllIdempotent(GetArticle(s).tagList, t);
  }

  /**
   `TAG_ADD t` followed by `TAG_REMOVE t` gives back the state exactly,
   `initialState` included, when `t` was not yet in the tag list.
   */
  lemma TagAddThenRemove(s: State, t: Tags.Tag)
    requires t !in GetArticle(s).tagList
    ensures TagRemoved(TagAdded(s, t), t) == s
  {
    Tags.AppendThenRemove(GetArticle(s).tagList, t);
  }

  /** Committing one mutation. Every mutation keeps `initialState.article` empty apart from its tag list. */
  function Apply(s: State, m: Mutation): (r: State)
    ensures Valid(s) ==> Valid(r)
  {
    match m
    case SetArticle(ref) => WithArticle(s, ref)
    case SetComments(cs) => WithComments(s, cs)
    case SetImages(imgs) => WithImages(s, imgs)
    case TagAdd(t) => TagAdded(s, t)
    case TagRemove(t) => TagRemoved(s, t)
    case ResetState => Reset(s)
  }

  /** Committing a sequence of mutations in order. */
  function ApplyAll(s: State, ms: seq<Mutation>): (r: State)
    ensures Valid(s) ==> Valid(r)
    decreases |ms|
  {
    if ms == [] then s else ApplyAll(Apply(s, ms[0]), ms[1..])
  }

  /** A tag edit applied to a bare tag list. */
  function TagStep(tags: seq<Tags.Tag>, m: Mutation): seq<Tags.Tag>
  {
    match m
    case TagAdd(t) => Tags.Append(tags, t)
    case TagRemove(t) => Tags.RemoveAll(tags, t)
    case _ => tags
  }

  /** A sequence of tag edits applied to a bare tag list, in order. */
  function ReplayTags(tags: seq<Tags.Tag>, ops: seq<Mutation>): seq<Tags.Tag>
    decreases |ops|
  {
    if ops == [] then tags else ReplayTags(TagStep(tags, ops[0]), ops[1..])
  }

  /**
   The tag edits among `ms` that are committed while `state.article` is
   still the object `initialState.article`: exactly the ones that leak into
   the module's defaults.
   */
  function SharedTagEdits(s: State, ms: seq<Mutation>): seq<Mutation>
    decreases |ms|
  {
    if ms == [] then []
    else
      var leaked := s.article.SharedDefault? && (ms[0].TagAdd? || ms[0].TagRemove?);
      (if leaked then [ms[0]] else []) + SharedTagEdits(Apply(s, ms[0]), ms[1..])
  }

  /** One commit changes the tag list of `initialState.article` only by a tag edit made while it is shared. */
  lemma ApplySharedTags(s: State, m: Mutation)
    ensures Apply(s, m).shared.tagList ==
      (if s.article.SharedDefault? then TagStep(s.shared.tagList, m) else s.shared.tagList)
  {
  }

  /**
   After any sequence of commits, the tag list of `initialState.article` is
   what the tag edits made while `state.article` shared it did to it, and
   nothing else: edits on any other article never reach it.
   */
  lemma {:induction false} DefaultTagsRecordSharedEdits(s: State, ms: seq<Mutation>)
    ensures ApplyAll(s, ms).shared.tagList == ReplayTags(s.shared.tagList, SharedTagEdits(s, ms))
    decreases |ms|
  {
    if ms != [] {
      var m := ms[0];
      var s' := Apply(s, m);
      DefaultTagsRecordSharedEdits(s', ms[1..]);
      ApplySharedTags(s, m);
      var rest := SharedTagEdits(s', ms[1..]);
      if s.article.SharedDefault? && (m.TagAdd? || m.TagRemove?) {
        assert SharedTagEdits(s, ms) == [m] + rest;
        assert ([m] + rest)[1..] == rest;
      } else {
        assert SharedTagEdits(s, ms) == rest;
      }
    }
  }

  /**
   What `RESET_STATE` leaves in the article's tag list after any history
   from load: the replay of the tag edits made while the article was still
   the shared default object. It is empty for every history without such
   edits, and not in general otherwise.
   */
  lemma ResetShowsSharedEdits(ms: seq<Mutation>)
    ensures GetArticle(Reset(ApplyAll(Init(), ms))).tagList == ReplayTags([], SharedTagEdits(Init(), ms))
    ensures GetComments(Reset(ApplyAll(Init(), ms))) == [] && GetImages(Reset(ApplyAll(Init(), ms))) == []
  {
    DefaultTagsRecordSharedEdits(Init(), ms);
  }

  /**
   If no tag edit happened while `state.article` was `initialState.article`,
   `RESET_STATE` gives back exactly the load-time state.
   */
  lemma ResetRestoresInitWithoutSharedEdits(ms: seq<Mutation>)
    requires SharedTagEdits(Init(), ms) == []
    ensures Reset(ApplyAll(Init(), ms)) == Init()
  {
    DefaultTagsRecordSharedEdits(Init(), ms);
    assert Valid(Init());
  }

  /**
   The defect: adding a tag right after load and then resetting leaves the
   tag in place, because the tag went into `initialState.article`.
   */
  lemma ResetKeepsTagAddedAtLoad(t: Tags.Tag)
    ensures GetArticle(ApplyAll(Init(), [TagAdd(t), ResetState])).tagList == [t]
    ensures ApplyAll(Init(), [TagAdd(t), ResetState]) != Init()
  {
    var s1 := Apply(Init(), TagAdd(t));
    assert s1.shared.tagList == [t];
    assert ApplyAll(Init(), [TagAdd(t), ResetState]) == ApplyAll(s1, [ResetState]);
    assert ApplyAll(s1, [ResetState]) == ApplyAll(Reset(s1), []);
  }

  /*
   The evident intent: `state` owns a fresh copy of the default article and
   `RESET_STATE` installs another fresh copy, so `initialState` is never
   written and a reset always restores the defaults.
   */

  /** The load-time state when `state` gets its own copy of the default article. */
  function FreshInit(): (s: State)
    ensures GetArticle(s) == EmptyArticle && GetComments(s) == [] && GetImages(s) == []
    ensures s.article.Plain? && s.shared == EmptyArticle
  {
    State(EmptyArticle, Plain(EmptyArticle), InitialComments, InitialImages)
  }

  /** `RESET_STATE` installing a fresh copy of each default. */
  function FreshReset(s: State): (r: State)
    ensures GetArticle(r) == EmptyArticle
    ensures GetComments(r) == InitialComments && GetImages(r) == InitialImages
    ensures r.article.Plain? && r.shared == s.shared
  {
    s.(article := Plain(EmptyArticle), comments := InitialComments, images := InitialImages)
  }

  /**
   Committing one mutation with the corrected reset. A reset shows the
   defaults and leaves `state.article` unshared; every other mutation is as
   before, and none of them writes `initialState.article` while
   `state.article` is not that object.
   */
  function ApplyFixed(s: State, m: Mutation): (r: State)
    ensures m.ResetState? ==> GetArticle(r) == EmptyArticle && GetComments(r) == [] && GetImages(r) == []
    ensures m.ResetState? ==> r.article.Plain?
    ensures !m.ResetState? ==> r == Apply(s, m)
    ensures s.article.Plain? && m != SetArticle(SharedDefault) ==> r.article.Plain? && r.shared == s.shared
  {
    if m.ResetState? then FreshReset(s) else Apply(s, m)
  }

  /**
   Committing a sequence of mutations with the corrected reset. Whatever
   came before, a history that ends in a reset shows the defaults.
   */
  function ApplyAllFixed(s: State, ms: seq<Mutation>): (r: State)
    ensures |ms| > 0 && ms[|ms| - 1].ResetState? ==>
      GetArticle(r) == EmptyArticle && GetComments(r) == [] && GetImages(r) == []
    decreases |ms|
  {
    if ms == [] then s else ApplyAllFixed(ApplyFixed(s, ms[0]), ms[1..])
  }

  /**
   With fresh copies the object `initialState.article` is never handed out,
   so no commit can point `state.article` back at it.
   */
  ghost predicate NeverPassesDefault(ms: seq<Mutation>)
  {
    forall i :: 0 <= i < |ms| ==> ms[i] != SetArticle(SharedDefault)
  }

  /** Under the corrected reset, no history writes into `initialState.article`. */
  lemma {:induction false} FixedDefaultsNeverWritten(s: State, ms: seq<Mutation>)
    requires s.article.Plain? && s.shared == EmptyArticle
    requires NeverPassesDefault(ms)
    ensures ApplyAllFixed(s, ms).article.Plain?
    ensures ApplyAllFixed(s, ms).shared == EmptyArticle
    decreases |ms|
  {
    if ms != [] {
      assert ms[0] != SetArticle(SharedDefault);
      assert NeverPassesDefault(ms[1..]) by {
        forall i | 0 <= i < |ms[1..]| ensures ms[1..][i] != SetArticle(SharedDefault) {
          assert ms[1..][i] == ms[i + 1];
        }
      }
      FixedDefaultsNeverWritten(ApplyFixed(s, ms[0]), ms[1..]);
    }
  }

  /** Under the corrected reset, resetting after any history gives back the load-time state. */
  lemma FixedResetRestoresDefaults(ms: seq<Mutation>)
    requires NeverPassesDefault(ms)
    ensures FreshReset(ApplyAllFixed(FreshInit(), ms)) == FreshInit()
  {
    FixedDefaultsNeverWritten(FreshInit(), ms);
  }
}
