/**
 The article store's state and its read accessors.

 The module keeps two records: `initialState` and `state`. `state` is a
 shallow copy of `initialState`, so right after loading, `state.article` and
 `initialState.article` are one and the same object, and an assignment to
 `state.article.tagList` is also an assignment to `initialState.article.tagList`.
 The model makes that sharing explicit: `shared` holds the current contents of
 the object `initialState.article`, and `article` says whether `state.article`
 points at that object (`SharedDefault`) or at some other article (`Plain`).

 `initialState.comments` and `initialState.images` are never written by the
 module (the setters replace whole arrays and nothing appends in place), so
 they are the constant empty lists below.
 */
module ArticleState {
  import Tags

  /** A JSON object from the backend (an author profile, a comment, an image), kept opaque: its fields by name. */
  datatype Record = Record(fields: map<string, string>)

  /** The `{}` the author starts as. */
  const EmptyRecord := Record(map[])

  /** The five article fields the store initialises and edits. */
  datatype Article = Article(
    author: Record,
    title: string,
    description: string,
    body: string,
    tagList: seq<Tags.Tag>)

  /** The article literal inside `initialState`, as written at module load. */
  const EmptyArticle := Article(EmptyRecord, "", "", "", [])

  /** `initialState.comments` and `initialState.images`. */
  const InitialComments: seq<Record> := []
  const InitialImages: seq<Record> := []

  /** Which object `state.article` refers to. */
  datatype ArticleRef =
    | SharedDefault        // the very object `initialState.article`
    | Plain(value: Article) // an article object that is not `initialState.article`

  /**
   The module's memory: the contents of `initialState.article` and the three
   fields of `state`.
   */
  datatype State = State(
    shared: Article,
    article: ArticleRef,
    comments: seq<Record>,
    images: seq<Record>)

  /** The article an `ArticleRef` denotes in state `s`. */
  function Deref(s: State, ref: ArticleRef): Article
  {
    match ref
    case SharedDefault => s.shared
    case Plain(a) => a
  }

  /**
   The state at module load: `state = { ...initialState }`. The copy is
   shallow, so `state.article` is the object `initialState.article` itself,
   still holding the literal defaults.
   */
  function Init(): (s: State)
    ensures s.article == SharedDefault && s.shared == EmptyArticle
    ensures s.comments == [] && s.images == []
  {
    State(EmptyArticle, SharedDefault, InitialComments, InitialImages)
  }

  /** The `article` getter: the article `state.article` refers to. */
  function GetArticle(s: State): (a: Article)
    ensures s.article.SharedDefault? ==> a == s.shared
    ensures s.article.Plain? ==> a == s.article.value
  {
    Deref(s, s.article)
  }

  /** The `comments` getter. */
  function GetComments(s: State): (cs: seq<Record>)
    ensures cs == s.comments
  {
    s.comments
  }

  /** The `images` getter. */
  function GetImages(s: State): (imgs: seq<Record>)
    ensures imgs == s.images
  {
    s.images
  }

  /**
   The only thing that can ever change in `initialState.article` is its tag
   list: every other field is still the empty default.
   */
  ghost predicate Valid(s: State)
  {
    s.shared == EmptyArticle.(tagList := s.shared.tagList)
  }

  /** At load every getter shows an empty value and `initialState` is untouched. */
  lemma InitialStateIsEmpty()
    ensures GetArticle(Init()).author == EmptyRecord
    ensures GetArticle(Init()).title == "" && GetArticle(Init()).description == "" && GetArticle(Init()).body == ""
    ensures GetArticle(Init()).tagList == []
    ensures GetComments(Init()) == [] && GetImages(Init()) == []
    ensures Init().article == SharedDefault && Valid(Init())
  {
  }
}
