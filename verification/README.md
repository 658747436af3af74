# Space Traveling index page: a Dafny model

A model of the blog's index page (`src/pages/index.tsx`): how raw CMS documents are
projected onto post summaries, how the page's generation-time props are assembled, and
the browser-side "load more" state that appends further pages to the listing.

- `nullable.dfy` (module `Nullable`): JavaScript nullable values and their truthiness.
- `prismic.dfy` (module `Prismic`): the CMS shapes the page reads: raw documents, the
  query, its options (the content reference) and a page of query results.
- `projection.dfy` (module `Projection`): the summary record `{uid, first_publication_date, data}`
  and the projection `Project` / `ProjectAll` used both at generation time and after each
  "load more" fetch.
- `static_props.dfy` (module `StaticProps`): `getStaticProps`. The CMS is a function
  parameter `cms` from the query issued to its answer, so the model shows which query is made
  (type `post`, at the preview reference or the published content) and what is kept of the
  answer (`next_page` and the projected results), with `revalidate` fixed at 1800 seconds.
- `home.dfy` (module `Home`): the class `HomeState` holding the component state `posts` and
  `nextPage`, seeded from the props, with `Paginate(response)` as the button's click
  handler. The HTTP response is an input of `Paginate`. A ghost history of the responses
  applied so far ties the state to the pure functions `Appended` and `Flatten`.

One might expect "load more" to follow the cursor of the last page fetched. The handler
does not: it always fetches the `next_page` of the generated props (index.tsx:44),
whatever the current cursor is. The model follows the code. `HomeState.RequestUrl` and
`HomeState.Paginate` state that the requested URL is always the generated cursor. The client
method `Home.ThreePageSession` shows the consequence: after page two arrives with a cursor to
page three, the next click requests page two again and appends its posts a second time.

## Model

| member | source | states |
|---|---|---|
| Projection.ProjectionKeepsExactlyThreeFields | src/pages/index.tsx:128-134 | two documents have equal summaries iff they agree on `uid`, `first_publication_date` and `data`; no other field reaches the summary |
| Projection.ProjectionCopiesFields | src/pages/index.tsx:47-53 | the summary's three fields are the document's own, unchanged |
| Projection.ProjectAll | src/pages/index.tsx:128 | projecting a result list keeps its length and order: element `i` of the output is the projection of element `i` of the input |
| Projection.ProjectAllConcat | src/pages/index.tsx:55 | projecting two lists one after the other equals projecting their concatenation |
| StaticProps.ContentRef | src/pages/index.tsx:125 | the content reference is present exactly when the preview data carries a reference, and is then that reference; otherwise the published content (null) is queried |
| StaticProps.PreviewFlag | src/pages/index.tsx:119 | `preview` is true only when the context says true; absent means false |
| StaticProps.PostsQuery | src/pages/index.tsx:123-126 | the page queries `document.type` = `post` at the resolved content reference |
| StaticProps.GetStaticProps | src/pages/index.tsx:118-146 | props carry the query answer's `next_page`, its results projected element by element in order, the preview flag, and `revalidate` = 1800 |
| StaticProps.PropsDependOnRefAndFlag | src/pages/index.tsx:118-146 | two generation contexts with the same content reference and preview flag produce identical props |
| Home.AppendedIsProjectionOfPages | src/pages/index.tsx:47-55 | what the paginations appended is the projection of all fetched results concatenated in arrival order |
| Home.AppendedConcat | src/pages/index.tsx:55 | the appended list of a session is that of any earlier moment of it followed by that of the later pages |
| Home.HomeState.constructor | src/pages/index.tsx:40-41 | the initial state is the generated props: `posts` = `postsPagination.results`, `next_page` = `postsPagination.next_page` |
| Home.HomeState.ShowsLoadMore | src/pages/index.tsx:101-105 | the "load more" button is shown iff `next_page` is non-null and non-empty |
| Home.HomeState.RequestUrl | src/pages/index.tsx:44 | the URL fetched is the generated `postsPagination.next_page`, a non-empty string, independent of pages already appended |
| Home.HomeState.Paginate | src/pages/index.tsx:43-57 | a click completed by a response requests the generated cursor, appends the projected results after the old `posts` (old list an unchanged prefix), replaces `next_page` by the response's, and leaves the props unchanged |
| Home.SessionState | src/pages/index.tsx:40-56 | after any sequence of paginations, `posts` is the generated list followed by the projection of every fetched result in call order, its length grows by exactly the fetched count, the list at any earlier moment is a prefix followed by the later pages, and the button follows the last response's cursor |

## Left out

- Rendering (JSX, the page title, the logo, the preview aside) and date formatting with
  `format` and the `ptBR` locale: templating and a foreign library.
- The network: `fetch`, `response.json()` and the CMS client's `query` are not modelled;
  their answers are inputs (`Paginate`'s `response`, `GetStaticProps`'s `cms`).
- Home.HomeState.Paginate: each click is modelled as completing before the next one starts.
  The code has no in-flight guard; with two overlapping fetches each completion appends to
  the `posts` its own render captured, so one page can overwrite the other's append. That
  interleaving is not modelled.
- A failed fetch or a malformed JSON body: the code attaches no error handler, so the
  state is left as it was; the model has no failure input for `Paginate`.
- Prismic.DocumentData: `data` is copied whole; fields other than title, subtitle and
  author (banner, rich-text content) are abstracted as a map of strings.
- `src/pages/post/[slug].tsx` (detail page, reading time), `src/pages/api/exit-preview.ts`
  (clears the preview cookie and redirects) and the header and preview-button components
  are not part of this model.
