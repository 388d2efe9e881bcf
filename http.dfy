/** The status code and JSON body an API route answers with. */
module Http {
  import opened Types

  datatype Body =
    | ErrorBody(error: string)
    | VibeBody(score: real, reason: Option<string>)
    | DraftListBody(success: bool, drafts: seq<DraftSummary>)
    | DraftIdBody(success: bool, id: string)

  datatype Response = Response(status: int, body: Body)

  const MethodNotAllowed := Response(405, ErrorBody("Method not allowed"))
}
