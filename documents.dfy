/** The record that ingestion stores and querying returns: a text blob that is
    embedded for search and a flat metadata dict used for display and filtering. */
module Documents {
  import opened Json

  datatype Document = Document(pageContent: string, metadata: seq<(string, Json)>)
}
