/**
 * The post record of the list page and its normaliser `formatPostData`,
 * which flattens the rich-text fields a CMS document carries into the text
 * the page shows, and the mapping `getStaticProps` applies to the first page.
 */
module Posts {
  import opened Wrappers
  import JsSemantics

  /** A rich-text run of the CMS; the normaliser reads only its `text`. */
  datatype Run = Run(text: string)

  /** A text-bearing field: the CMS's list of runs, or a string already flattened. */
  datatype Field = Runs(runs: seq<Run>) | Plain(s: string)

  datatype PostData = PostData(title: Field, subtitle: Field, author: Field)

  /**
   * A post, raw as the CMS returns it or normalised: both have the same shape.
   * `uid` may be absent and `first_publication_date` may be `null`.
   */
  datatype Post = Post(uid: Option<string>, firstPublicationDate: Option<string>, data: PostData)

  /** A page of posts and the cursor of the next one (`null` or `""` when there is none). */
  datatype PostPagination = PostPagination(nextPage: Option<string>, results: seq<Post>)

  /** `field[0]` is defined: the field is a non-empty list of runs or a non-empty string. */
  predicate HasFirst(f: Field)
  {
    match f
    case Runs(runs) => |runs| > 0
    case Plain(s) => s != ""
  }

  /**
   * The shapes normalisation leaves behind: a non-empty string, or a list of
   * runs whose first run has empty text (which the `||` keeps as it is).
   */
  predicate Flattened(f: Field)
  {
    match f
    case Runs(runs) => |runs| > 0 && runs[0].text == ""
    case Plain(s) => s != ""
  }

  /** The field as a JavaScript value: each run becomes an object with a string `text`. */
  function ToJs(f: Field): JsSemantics.Value
  {
    match f
    case Runs(runs) => JsSemantics.Array(seq(|runs|, i requires 0 <= i < |runs| => JsSemantics.Record(JsSemantics.Str(runs[i].text))))
    case Plain(s) => JsSemantics.Str(s)
  }

  /**
   * `field[0].text || field`. The first run's text wins when it is non-empty;
   * a plain string has no `text` at index 0, so it comes back unchanged; a
   * first run with empty text makes the whole list of runs the result; and an
   * empty list or empty string has no element 0, so reading `.text` throws.
   */
  function FlattenField(f: Field): (r: Result<Field>)
    ensures r.Ok? <==> HasFirst(f)
    ensures r.Ok? ==> Flattened(r.value)
    ensures r.Ok? && f.Runs? && f.runs[0].text != "" ==> r.value == Plain(f.runs[0].text)
    ensures r.Ok? && f.Plain? ==> r.value == f
    ensures r.Ok? && f.Runs? && f.runs[0].text == "" ==> r.value == f
  {
    match f
    case Runs(runs) =>
      if |runs| == 0 then Err(TypeError)
      else if runs[0].text != "" then Ok(Plain(runs[0].text))
      else Ok(f)
    case Plain(s) =>
      if s == "" then Err(TypeError) else Ok(f)
  }

  /** FlattenField is exactly what JavaScript computes for `field[0].text || field`, exception included. */
  lemma FlattenFieldAgreesWithJs(f: Field)
    ensures FlattenField(f).Err? <==> JsSemantics.FirstTextOr(ToJs(f)).Err?
    ensures FlattenField(f).Ok? ==> JsSemantics.FirstTextOr(ToJs(f)) == Ok(ToJs(FlattenField(f).value))
  {
    match f
    case Runs(runs) =>
      if |runs| > 0 {
        assert ToJs(f).elems[0] == JsSemantics.Record(JsSemantics.Str(runs[0].text));
      }
    case Plain(s) =>
  }

  /** The flattened shapes are exactly the fields FlattenField returns unchanged. */
  lemma FlattenFieldFixpoints(f: Field)
    ensures FlattenField(f) == Ok(f) <==> Flattened(f)
  {
  }

  /** A normalised post: all three text fields are in a flattened shape. */
  predicate NormalPost(p: Post)
  {
    Flattened(p.data.title) && Flattened(p.data.subtitle) && Flattened(p.data.author)
  }

  /**
   * `formatPostData`: copies `uid` and `first_publication_date`, and flattens
   * `author`, `subtitle` and `title`, in that order. It throws as soon as one
   * of them has no element 0.
   */
  function FormatPostData(post: Post): (r: Result<Post>)
    ensures r.Ok? <==> HasFirst(post.data.author) && HasFirst(post.data.subtitle) && HasFirst(post.data.title)
    ensures r.Ok? ==> r.value.uid == post.uid && r.value.firstPublicationDate == post.firstPublicationDate
    ensures r.Ok? ==> r.value.data == PostData(FlattenField(post.data.title).value,
                                                FlattenField(post.data.subtitle).value,
                                                FlattenField(post.data.author).value)
    ensures r.Ok? ==> NormalPost(r.value)
  {
    var author := FlattenField(post.data.author);
    if author.Err? then Err(author.error) else
    var subtitle := FlattenField(post.data.subtitle);
    if subtitle.Err? then Err(subtitle.error) else
    var title := FlattenField(post.data.title);
    if title.Err? then Err(title.error) else
    Ok(Post(post.uid, post.firstPublicationDate, PostData(title.value, subtitle.value, author.value)))
  }

  /** Normalising leaves a post unchanged exactly when it is already normalised. */
  lemma NormalPostFixed(p: Post)
    ensures FormatPostData(p) == Ok(p) <==> NormalPost(p)
  {
    FlattenFieldFixpoints(p.data.title);
    FlattenFieldFixpoints(p.data.subtitle);
    FlattenFieldFixpoints(p.data.author);
  }

  /** Normalising twice is normalising once. */
  lemma FormatPostDataIdempotent(p: Post)
    requires FormatPostData(p).Ok?
    ensures FormatPostData(FormatPostData(p).value) == FormatPostData(p)
  {
    NormalPostFixed(FormatPostData(p).value);
  }

  /** A post whose three fields are non-empty plain strings is returned as it is. */
  lemma FlatPostUnchanged(p: Post)
    requires p.data.title.Plain? && p.data.subtitle.Plain? && p.data.author.Plain?
    requires p.data.title.s != "" && p.data.subtitle.s != "" && p.data.author.s != ""
    ensures FormatPostData(p) == Ok(p)
  {
    NormalPostFixed(p);
  }

  /**
   * A title whose first run has empty text is not flattened to a string: the
   * normalised post still holds the list of runs.
   */
  lemma EmptyFirstRunKeepsRuns(p: Post, more: seq<Run>)
    requires p.data.title == Runs([Run("")] + more)
    requires HasFirst(p.data.subtitle) && HasFirst(p.data.author)
    ensures FormatPostData(p).Ok?
    ensures FormatPostData(p).value.data.title == Runs([Run("")] + more)
    ensures !FormatPostData(p).value.data.title.Plain?
  {
  }

  /**
   * `results.map(formatPostData)`: normalises each post in order; the first
   * post that throws makes the whole map throw.
   */
  function FormatAll(posts: seq<Post>): (r: Result<seq<Post>>)
    ensures r.Ok? <==> forall i :: 0 <= i < |posts| ==> FormatPostData(posts[i]).Ok?
    ensures r.Ok? ==> |r.value| == |posts|
    ensures r.Ok? ==> forall i :: 0 <= i < |posts| ==> r.value[i] == FormatPostData(posts[i]).value
  {
    if posts == [] then Ok([])
    else
      match FormatPostData(posts[0])
      case Err(e) => Err(e)
      case Ok(first) =>
        match FormatAll(posts[1..])
        case Err(e) => Err(e)
        case Ok(rest) => Ok([first] + rest)
  }

  /** Every post a successful map produces is normalised. */
  lemma FormatAllNormal(posts: seq<Post>)
    requires FormatAll(posts).Ok?
    ensures forall i :: 0 <= i < |FormatAll(posts).value| ==> NormalPost(FormatAll(posts).value[i])
  {
  }

  /** Mapping a concatenation is concatenating the maps, and it throws when either part does. */
  lemma {:induction false} FormatAllAppend(a: seq<Post>, b: seq<Post>)
    ensures FormatAll(a + b).Ok? <==> FormatAll(a).Ok? && FormatAll(b).Ok?
    ensures FormatAll(a + b).Ok? ==> FormatAll(a + b).value == FormatAll(a).value + FormatAll(b).value
  {
    if a == [] {
      assert a + b == b;
    } else {
      assert (a + b)[0] == a[0];
      assert (a + b)[1..] == a[1..] + b;
      FormatAllAppend(a[1..], b);
    }
  }

  /** Mapping an already mapped list changes nothing. */
  lemma {:induction false} FormatAllIdempotent(posts: seq<Post>)
    requires FormatAll(posts).Ok?
    ensures FormatAll(FormatAll(posts).value) == FormatAll(posts)
  {
    if posts != [] {
      FormatPostDataIdempotent(posts[0]);
      FormatAllIdempotent(posts[1..]);
    }
  }

  /**
   * The props `getStaticProps` builds from the first page of the query: the
   * results normalised one by one, in order, and `next_page` copied verbatim.
   * A post that throws makes the whole build of the page throw.
   */
  function GetStaticProps(response: PostPagination): (r: Result<PostPagination>)
    ensures r.Ok? <==> forall i :: 0 <= i < |response.results| ==> FormatPostData(response.results[i]).Ok?
    ensures r.Ok? ==> r.value.nextPage == response.nextPage
    ensures r.Ok? ==> |r.value.results| == |response.results|
    ensures r.Ok? ==> forall i :: 0 <= i < |response.results| ==> r.value.results[i] == FormatPostData(response.results[i]).value
  {
    match FormatAll(response.results)
    case Err(e) => Err(e)
    case Ok(posts) => Ok(PostPagination(response.nextPage, posts))
  }

  /**
   * The worked example of the post list: one post with title "Hello",
   * subtitle "World" and author "Jane", and no next page.
   */
  lemma SinglePostPage()
    ensures
      var raw := Post(Some("p1"), Some("2021-01-01T00:00:00Z"),
                      PostData(Runs([Run("Hello")]), Runs([Run("World")]), Runs([Run("Jane")])));
      GetStaticProps(PostPagination(None, [raw]))
        == Ok(PostPagination(None, [Post(Some("p1"), Some("2021-01-01T00:00:00Z"),
                                         PostData(Plain("Hello"), Plain("World"), Plain("Jane")))]))
  {
    var raw := Post(Some("p1"), Some("2021-01-01T00:00:00Z"),
                    PostData(Runs([Run("Hello")]), Runs([Run("World")]), Runs([Run("Jane")])));
    var post := Post(Some("p1"), Some("2021-01-01T00:00:00Z"),
                     PostData(Plain("Hello"), Plain("World"), Plain("Jane")));
    assert FormatPostData(raw) == Ok(post);
    assert FormatPostData([raw][0]).Ok?;
    assert FormatAll([raw]).Ok?;
    assert FormatAll([raw]).value[0] == post;
    assert FormatAll([raw]).value == [post];
    assert GetStaticProps(PostPagination(None, [raw])) == Ok(PostPagination(None, [post]));
  }
}
