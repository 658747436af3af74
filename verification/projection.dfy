/** The summary record the index page keeps for each post, and the projection
    from raw CMS documents onto it (index.tsx, the two `results.map` calls). */
module Projection {
  import opened Nullable
  import opened Prismic

  /** The summary form of a post: `{uid, first_publication_date, data}`. */
  datatype Post = Post(
    uid: Option<string>,
    firstPublicationDate: Option<string>,
    data: DocumentData)

  /** Keeps `uid`, `first_publication_date` and `data` of a document, copied as they are. */
  function Project(doc: RawDocument): Post {
    Post(doc.uid, doc.firstPublicationDate, doc.data)
  }

  /** Two documents project to the same summary exactly when they agree on the
      three kept fields: nothing else of a document reaches the summary, and
      each of the three does. */
  lemma ProjectionKeepsExactlyThreeFields(d1: RawDocument, d2: RawDocument)
    ensures Project(d1) == Project(d2) <==>
      d1.uid == d2.uid && d1.firstPublicationDate == d2.firstPublicationDate && d1.data == d2.data
  {
  }

  /** The projected fields are the document's own. */
  lemma ProjectionCopiesFields(doc: RawDocument)
    ensures Project(doc).uid == doc.uid
    ensures Project(doc).firstPublicationDate == doc.firstPublicationDate
    ensures Project(doc).data == doc.data
  {
  }

  /** `results.map(project)`: same length, same order, element by element. */
  function ProjectAll(docs: seq<RawDocument>): (posts: seq<Post>)
    ensures |posts| == |docs|
    ensures forall i :: 0 <= i < |docs| ==> posts[i] == Project(docs[i])
  {
    if docs == [] then [] else [Project(docs[0])] + ProjectAll(docs[1..])
  }

  /** Projecting two lists one after the other gives the projection of their concatenation. */
  lemma ProjectAllConcat(a: seq<RawDocument>, b: seq<RawDocument>)
    ensures ProjectAll(a + b) == ProjectAll(a) + ProjectAll(b)
  {
  }
}
