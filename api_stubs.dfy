/** The placeholder analysis route (src/pages/api/analyze.ts): any POST gets a fixed
    neutral-positive reply, whatever its body. */
module AnalyzeStub {
  import opened Types
  import opened Http
  import EditorWindow

  const StubScore := 0.5
  const StubReason := "API integration pending"

  function Handler(httpMethod: string, requestBody: string): (res: Response)
    ensures res.status == 405 <==> httpMethod != "POST"
    ensures httpMethod != "POST" ==> res.body.ErrorBody?
    ensures res.status == 200 <==> httpMethod == "POST"
    ensures res.status == 200 ==> res.body.VibeBody? && -1.0 <= res.body.score <= 1.0
  {
    if httpMethod != "POST" then MethodNotAllowed
    else Response(200, VibeBody(StubScore, Some(StubReason)))
  }

  /** Every POST gets the same reply, whatever its body. */
  lemma {:induction false} ReplyIgnoresBody(body1: string, body2: string)
    ensures Handler("POST", body1) == Handler("POST", body2) == Response(200, VibeBody(0.5, Some(StubReason)))
  {
  }

  /** The stub's reason is neither a placeholder nor an error reason, so the editor
      stores the stub's reply as it comes. */
  lemma {:induction false} ClientKeepsStubReason(body: string)
    ensures var r := Handler("POST", body).body;
      EditorWindow.Accepted(Returned(EditorWindow.AnalysisReply(r.score, r.reason, None)))
        == Some(VibeAnalysis(StubScore, StubReason, None))
  {
    assert |StubReason| == 23;
    assert |EditorWindow.NonJsonSentinel| == 48 && |EditorWindow.LabelSentinel| == 22;
    assert |EditorWindow.CloudErrorReason| == 20 && |EditorWindow.ApiErrorReason| == 9;
    assert !EditorWindow.NeedsFallback(Some(StubReason));
    assert !EditorWindow.IsErrorReason(StubReason);
  }
}

/** The placeholder drafts route (src/pages/api/drafts/index.ts): GET lists nothing,
    POST creates nothing and always answers with the same id, and every other method,
    including the PUT the client uses to update a draft, is refused. */
module DraftsStub {
  import opened Types
  import opened Http
  import EditorWindow

  const NewDraftId := "new-draft-id"

  function Handler(httpMethod: string, requestBody: string): (res: Response)
    ensures httpMethod == "GET" ==> res == Response(200, DraftListBody(true, []))
    ensures httpMethod == "POST" ==> res.status == 200 && res.body.DraftIdBody? && res.body.success
    ensures res.status == 405 <==> httpMethod != "GET" && httpMethod != "POST"
  {
    if httpMethod == "GET" then Response(200, DraftListBody(true, []))
    else if httpMethod == "POST" then Response(200, DraftIdBody(true, NewDraftId))
    else MethodNotAllowed
  }

  /** The verb the client sends for a save. */
  function Verb(m: EditorWindow.HttpMethod): string {
    match m
    case Post => "POST"
    case Put => "PUT"
  }

  /** Two creations answer with the same id, whatever their bodies. */
  lemma {:induction false} PostsShareId(body1: string, body2: string)
    ensures Handler("POST", body1) == Handler("POST", body2)
    ensures Handler("POST", body1).body.id == NewDraftId
  {
  }

  /** Saving a draft that already has an id sends PUT, which this route refuses. */
  lemma {:induction false} UpdateIsRefused(id: string, body: string)
    requires id != ""
    ensures Handler(Verb(EditorWindow.SaveMethod(Some(id))), body).status == 405
  {
    assert Verb(EditorWindow.SaveMethod(Some(id))) == "PUT";
    assert "PUT" != "GET" && "PUT" != "POST";
  }
}
