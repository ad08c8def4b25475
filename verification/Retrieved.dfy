/** What the search, rerank, generation and critic stages hand to one another. */
module Retrieved {
  import opened Wrappers

  datatype Chunk = Chunk(
    id: string,
    documentId: Option<string>,
    filename: Option<string>,
    text: string,
    rrfScore: Option<real>,
    rerankScore: Option<real>)

  function Ids(s: seq<Chunk>): seq<string> {
    seq(|s|, i requires 0 <= i < |s| => s[i].id)
  }

  ghost predicate Distinct<T>(s: seq<T>) {
    forall i, j :: 0 <= i < j < |s| ==> s[i] != s[j]
  }

  datatype Turn = Turn(role: string, content: string)

  /** Uncaught: an exception of the language that no handler turns into one of the others. */
  datatype Error = EmbeddingError | RetrievalError | RerankerError | GenerationError | UncaughtError
}
