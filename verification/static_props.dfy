/** Generation-time assembly of the index page's props (index.tsx, `getStaticProps`). */
module StaticProps {
  import opened Nullable
  import opened Prismic
  import opened Projection

  /** The cursor page plus the summaries the index page starts from. */
  datatype PostPagination = PostPagination(nextPage: Option<string>, results: seq<Post>)

  datatype HomeProps = HomeProps(postsPagination: PostPagination, preview: bool)

  /** What `getStaticProps` returns: the page props and the regeneration window in seconds. */
  datatype StaticResult = StaticResult(props: HomeProps, revalidate: nat)

  /** The draft reference the host stored when an editor entered preview mode. */
  datatype PreviewData = PreviewData(ref: Option<string>)

  /** The generation context: `preview` is undefined outside preview mode, and so may `previewData` be. */
  datatype Context = Context(preview: Option<bool>, previewData: Option<PreviewData>)

  /** Thirty minutes. */
  const RevalidateSeconds: nat := 60 * 30

  /** `previewData?.ref ?? null`: the draft reference when there is one, the published content otherwise. */
  function ContentRef(ctx: Context): (ref: Option<string>)
    ensures ref.Some? <==> ctx.previewData.Some? && ctx.previewData.value.ref.Some?
    ensures ref.Some? ==> ref == ctx.previewData.value.ref
  {
    match ctx.previewData
    case None => None
    case Some(data) => data.ref
  }

  /** The destructuring default `preview = false`. */
  function PreviewFlag(ctx: Context): (preview: bool)
    ensures preview <==> ctx.preview == Some(true)
  {
    ctx.preview.GetOr(false)
  }

  /** The one query the page issues: every document of type `post`, at the resolved content reference. */
  function PostsQuery(ctx: Context): (q: Query)
    ensures q.filter == At("document.type", "post")
    ensures q.options.ref == ContentRef(ctx)
  {
    Query(At("document.type", "post"), QueryOptions(ContentRef(ctx)))
  }

  /** `getStaticProps`, with the CMS as the function `cms` from a query to its answer. */
  function GetStaticProps(ctx: Context, cms: Query -> QueryResponse): (r: StaticResult)
    ensures r.revalidate == 1800
    ensures r.props.preview <==> ctx.preview == Some(true)
    ensures r.props.postsPagination.nextPage == cms(PostsQuery(ctx)).nextPage
    ensures var docs := cms(PostsQuery(ctx)).results;
      |r.props.postsPagination.results| == |docs| &&
      forall i :: 0 <= i < |docs| ==> r.props.postsPagination.results[i] == Project(docs[i])
  {
    var response := cms(PostsQuery(ctx));
    StaticResult(
      HomeProps(PostPagination(response.nextPage, ProjectAll(response.results)), PreviewFlag(ctx)),
      RevalidateSeconds)
  }

  /** The generated props depend on the context only through the content reference
      and the preview flag: two contexts that agree on both yield the same page. */
  lemma PropsDependOnRefAndFlag(c1: Context, c2: Context, cms: Query -> QueryResponse)
    requires ContentRef(c1) == ContentRef(c2)
    requires PreviewFlag(c1) == PreviewFlag(c2)
    ensures GetStaticProps(c1, cms) == GetStaticProps(c2, cms)
  {
  }
}
