/** The shapes the CMS query service hands back, as far as the index page looks at them.
    The service itself is not modelled: its answers are inputs. */
module Prismic {
  import opened Nullable

  /** The `data` object of a post document. Only the three display strings are
      typed; every other field the editor filled in (banner, content, ...) is
      abstracted as a map from field name to its serialised value and travels
      along untouched. */
  datatype DocumentData = DocumentData(
    title: string,
    subtitle: string,
    author: string,
    otherFields: map<string, string>)

  /** A raw CMS document as it arrives in `results`. */
  datatype RawDocument = RawDocument(
    id: string,
    uid: Option<string>,
    docType: string,
    href: string,
    tags: seq<string>,
    firstPublicationDate: Option<string>,
    lastPublicationDate: Option<string>,
    lang: string,
    data: DocumentData)

  /** A predicate of the query language; the index page only uses `at(path, value)`. */
  datatype Predicate = At(path: string, value: string)

  /** The options object of a query: the content reference selecting the
      published content (`None`) or a draft release. */
  datatype QueryOptions = QueryOptions(ref: Option<string>)

  datatype Query = Query(filter: Predicate, options: QueryOptions)

  /** One page of query results: the documents and the cursor to the next page, if any.
      The service's other pagination metadata is never read by the index page. */
  datatype QueryResponse = QueryResponse(nextPage: Option<string>, results: seq<RawDocument>)
}
