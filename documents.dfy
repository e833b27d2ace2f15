/** The loader's document record: the text of one file and the path it came from. */
module Documents {

  datatype Doc = Doc(source: string, pageContent: string)

  /** A built vector index, reduced to the chunks it was built from; a rebuild replaces it wholesale. */
  datatype Snapshot = Snapshot(chunks: seq<Doc>)
}
