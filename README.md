# Post list of a statically generated blog: normaliser and pagination

This project models the logic of the post-list page of a Next.js blog that
reads its posts from the Prismic headless CMS (`src/pages/index.tsx`):

- **`formatPostData`**, the normaliser that turns a CMS document into a
  `Post`. It copies `uid` and `first_publication_date` and flattens `author`,
  `subtitle` and `title` with the JavaScript expression `field[0].text || field`.
  A field is modelled as a tagged variant: `Runs(seq<Run>)` for the CMS's list
  of rich-text runs, or `Plain(string)` for a field that is already a string.
  The normaliser returns a `Result`, and `Err(TypeError)` stands for the
  exception JavaScript throws when a field has no element 0.
- **The `results.map(formatPostData)` mapping**, used by `getStaticProps` to
  build the first page's props and by `loadNextPage` for later pages.
- **`loadNextPage`**, the pagination handler, as the class `Pagination.Home`.
  Its fields are the page's React state: `posts`, `nextPage` and
  `loadingNextPage`. The asynchronous handler is split at its `await`s:
  - `LoadNextPage` runs the guard, raises the busy flag and issues the request.
  - One completion step per outcome: `FetchRejected`, `ParseFailed` and
    `PageReceived`.

  Two ghost fields describe the controller's history:
  - `received` holds every raw post received so far. The class invariant says
    that `posts` is exactly `FormatAll(received)`.
  - `inFlight` says that a request is outstanding.

The module `JsSemantics` is a small model of the JavaScript operations that
`field[0].text || field` uses: indexing, the `text` property, truthiness and
`||`. The lemma `FlattenFieldAgreesWithJs` proves that the normaliser computes
what JavaScript computes, exception included.

In these edge cases the code behaves as follows:
- An empty run list or an empty string makes `field[0].text` throw a
  `TypeError`.
- A first run whose text is `""` makes `||` return the raw run list itself.
  So the "normalised" post can still hold the CMS array rather than a string
  (`EmptyFirstRunKeepsRuns`).
- The `await fetch(nextPage)` sits before the `try`. A rejected request
  therefore skips the `finally`, and the busy flag stays raised. Every later
  click is then a no-op (`FetchRejected`, `RejectedFetchBlocksLaterLoads`).
- A post in a later page that fails to normalise throws inside the `try`. It
  is caught like a JSON error: a diagnostic is logged, and the posts and the
  cursor stay as they were.

Files: `wrappers.dfy` (Option, Result, the exception), `js_semantics.dfy`,
`posts.dfy` (data model, normaliser, mapping, initial props) and
`pagination.dfy` (the controller class).

## Model

| member | source | states |
|---|---|---|
| `JsSemantics.FirstTextOr` | src/pages/index.tsx:44-46 | the flattening expression (index 0, then `.text`, then logical or with the field) throws exactly when `field` is undefined/null, an empty string, an object, an empty array, or an array whose element 0 is undefined/null; otherwise the result is truthy or is `field` itself |
| `Posts.FlattenField` | src/pages/index.tsx:44-46 | defined exactly when the field has an element 0; the result is in a flattened shape; a non-empty first run's text wins; a non-empty plain string comes back unchanged; a first run with empty text returns the raw run list |
| `Posts.FlattenFieldAgreesWithJs` | src/pages/index.tsx:44-46 | for every field, FlattenField throws iff the JavaScript expression throws, and otherwise gives the same value |
| `Posts.FlattenFieldFixpoints` | src/pages/index.tsx:44-46 | a field is returned unchanged iff it is a non-empty string or a run list whose first text is empty |
| `Posts.FormatPostData` | src/pages/index.tsx:39-49 | succeeds iff `author`, `subtitle` and `title` all have an element 0; copies `uid` and `first_publication_date` unchanged; each text field is that field flattened; the result is a normalised post |
| `Posts.NormalPostFixed` | src/pages/index.tsx:39-49 | normalising returns a post unchanged iff the post is already normalised |
| `Posts.FormatPostDataIdempotent` | src/pages/index.tsx:39-49 | normalising a normalised post gives the same post |
| `Posts.FlatPostUnchanged` | src/pages/index.tsx:44-46 | a post whose three fields are non-empty plain strings is returned as it is |
| `Posts.EmptyFirstRunKeepsRuns` | src/pages/index.tsx:44-46 | a title whose first run has empty text stays a run list after normalisation, not a string |
| `Posts.FormatAll` | src/pages/index.tsx:67 | `results.map(formatPostData)` succeeds iff every post normalises; then it has the same length and element i is post i normalised |
| `Posts.FormatAllNormal` | src/pages/index.tsx:67 | every post a successful map produces is normalised |
| `Posts.FormatAllAppend` | src/pages/index.tsx:67-70 | mapping `a + b` succeeds iff mapping `a` and mapping `b` both succeed, and then it is the concatenation of the two |
| `Posts.FormatAllIdempotent` | src/pages/index.tsx:67 | mapping an already mapped list gives the same list |
| `Posts.GetStaticProps` | src/pages/index.tsx:142-149 | the initial props succeed iff every post of the first page normalises; then `next_page` is copied verbatim and the results are the posts normalised one by one, in order |
| `Posts.SinglePostPage` | src/pages/index.tsx:142-149 | a first page holding one post with runs "Hello", "World" and "Jane" and no next page gives props with those plain strings and a null cursor |
| `Pagination.Home.constructor` | src/pages/index.tsx:51-55 | the initial state: posts and cursor from the props, flag down, and the invariant that posts are the normalisation of the raw first page |
| `Pagination.Home.LoadNextPage` | src/pages/index.tsx:57-62 | with no next page (`null` or `""`) or a load under way, returns no request and changes nothing; otherwise requests the cursor's URL and raises the flag, leaving posts and cursor alone |
| `Pagination.Home.FetchRejected` | src/pages/index.tsx:60-62 | a rejected request leaves posts and cursor unchanged and the flag raised with no request left to lower it |
| `Pagination.Home.ParseFailed` | src/pages/index.tsx:64-76 | a body that is not JSON logs a diagnostic, lowers the flag and leaves posts and cursor unchanged |
| `Pagination.Home.PageReceived` | src/pages/index.tsx:64-76 | when every result normalises: the old posts stay as a prefix, the normalised results follow in response order, the length grows by exactly the number of results, and the cursor becomes `next_page`; when one throws: a diagnostic is logged and posts and cursor stay; the flag is lowered either way and the invariant holds |
| `Pagination.DoubleClick` | src/pages/index.tsx:58-60 | two clicks before a load completes issue at most one request, and the second click returns no request |
| `Pagination.RejectedFetchBlocksLaterLoads` | src/pages/index.tsx:58-62 | after a rejected request, a later click issues no request and the flag stays raised |

## Left out

- Rendering (JSX, CSS modules, `next/head`, `next/link`, the "load more" button markup) and the header component: presentation only.
- Date formatting with `date-fns` in the `pt-BR` locale: a foreign library call on dates.
- The Prismic client query, its predicate and page size, `fetch` and `.json()`: network I/O and external libraries. Their results are method parameters, and their failures are the separate completion steps.
- `console.error`: modelled only as the `logged` result of the completion steps.
- React's `useState` closures and render scheduling: the setters are modelled as sequential field updates of one object. A second click handled by a closure captured before the re-render could see the flag still down. Two loads would then overlap: both would fetch the same URL, and since each `setPosts([...posts, ...newPosts])` reuses the `posts` captured at its click, the later completion would drop the page the earlier one appended. The model does not capture that.
- The unhandled promise rejection that a rejected request leaves behind: only its effect on the page state is modelled.
- JavaScript values of a field other than a run list or a string (`null`, `undefined`, numbers), a missing `data` object, and runs without `text`: the field type admits only the two shapes the CMS sends. `JsSemantics` does cover `undefined`, `null` and objects.
- Document properties other than `uid`, `first_publication_date`, `title`, `subtitle` and `author`: `formatPostData` drops them, so they are not part of the post type.
- A JSON body whose `results` is not a list: it throws inside the same `try`, with the same effect as a parse failure, and is modelled by `ParseFailed`.
- The post-detail page, its reading-time estimate and its normaliser: `src/pages/post/[slug].tsx` is not part of this model.
