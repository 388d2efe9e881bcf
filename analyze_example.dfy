/** The full analysis route (api-analyze-example.ts): method, authentication and body
    checks in that order, truncation of the text sent to the model, extraction of the
    JSON object from the model's reply with a fixed fallback, clamping of the score, and
    the mapping of failures to status codes. The authentication lookup, the model's
    reply, `JSON.parse` and the database writes are inputs. */
module AnalyzeExample {
  import opened Types
  import opened Http
  import opened Text

  const MaxChars := 2000

  const UnauthorizedError := "Unauthorized"
  const TextRequiredError := "Text is required"
  const RateLimitError := "Rate limit exceeded. Please try again later."
  const ConfigError := "API configuration error. Please contact support."
  const GenericError := "Failed to analyze text. Please try again."
  const ParseFallbackReason := "I couldn't analyze the vibe right now. Try again!"

  /** `supabase.auth.getUser()`: it throws, or returns an error flag and maybe a user. */
  datatype AuthLookup = AuthThrew | AuthResult(failed: bool, user: Option<string>)

  /** The `text` field of the request body. */
  datatype TextField = Missing | NotString | Text(value: string)

  datatype RequestBody = RequestBody(text: TextField, draftId: Option<string>)

  /** The model call: an API error with its status, another exception, or a first content
      block that is or is not text. */
  datatype ModelReply = ProviderError(status: int) | TransportError | Content(isText: bool, text: string)

  /** What `JSON.parse` yields for the extracted object, when it parses. */
  datatype ParsedVibe = ParsedVibe(score: real, reason: Option<string>)

  /** `text.slice(0, 2000)`. */
  function Truncate(s: string): (r: string)
    ensures |r| <= MaxChars && StartsWith(s, r)
    ensures |s| <= MaxChars ==> r == s
    ensures |s| > MaxChars ==> |r| == MaxChars
  {
    if |s| <= MaxChars then s else s[..MaxChars]
  }

  /** `/\{[\s\S]*\}/`: the greedy match runs from the first `{` to the last `}` after it. */
  function ExtractJson(t: string): (r: Option<string>)
    ensures r.Some? <==> exists i, j :: 0 <= i < j < |t| && t[i] == '{' && t[j] == '}'
    ensures r.Some? ==> |r.value| >= 2 && r.value[0] == '{' && r.value[|r.value| - 1] == '}'
    ensures r.Some? ==> exists i: nat ::
      && OccursAt(t, r.value, i)
      && (forall k :: 0 <= k < i ==> t[k] != '{')
      && (forall k :: i + |r.value| <= k < |t| ==> t[k] != '}')
  {
    var open := FirstIndexOf(t, '{');
    var close := LastIndexOf(t, '}');
    if open.Some? && close.Some? && open.value < close.value then
      var m := t[open.value..close.value + 1];
      assert t[open.value] == '{' && t[close.value] == '}';
      assert OccursAt(t, m, open.value);
      Some(m)
    else
      None
  }

  /** The parsed reply, or score 0 with the fixed apology when no object is found or it
      does not parse. */
  function ParseOrFallback(t: string, parse: string -> Option<ParsedVibe>): (v: ParsedVibe)
    ensures ExtractJson(t).None? ==> v == ParsedVibe(0.0, Some(ParseFallbackReason))
    ensures ExtractJson(t).Some? && parse(ExtractJson(t).value).Some? ==> v == parse(ExtractJson(t).value).value
    ensures ExtractJson(t).Some? && parse(ExtractJson(t).value).None? ==> v == ParsedVibe(0.0, Some(ParseFallbackReason))
  {
    var m := ExtractJson(t);
    if m.None? then ParsedVibe(0.0, Some(ParseFallbackReason))
    else
      var p := parse(m.value);
      if p.None? then ParsedVibe(0.0, Some(ParseFallbackReason)) else p.value
  }

  /** `Math.max(-1, Math.min(1, x))`. */
  function Clamp(x: real): (r: real)
    ensures -1.0 <= r <= 1.0
    ensures -1.0 <= x <= 1.0 ==> r == x
    ensures x > 1.0 ==> r == 1.0
    ensures x < -1.0 ==> r == -1.0
  {
    if x > 1.0 then 1.0 else if x < -1.0 then -1.0 else x
  }

  predicate Authorized(auth: AuthLookup) {
    auth.AuthResult? && !auth.failed && auth.user.Some?
  }

  predicate ValidText(body: RequestBody) {
    body.text.Text? && body.text.value != ""
  }

  /** The response for an exception thrown inside the `try` block. */
  function FailureResponse(reply: ModelReply): Response {
    if reply.ProviderError? && reply.status == 429 then Response(429, ErrorBody(RateLimitError))
    else if reply.ProviderError? && reply.status == 401 then Response(500, ErrorBody(ConfigError))
    else Response(500, ErrorBody(GenericError))
  }

  /** The handler's answer, as a function of the request and the awaited results. The
      database writes and their errors are absent: they never change the answer. */
  function Outcome(httpMethod: string, auth: AuthLookup, body: RequestBody, reply: ModelReply,
                   parse: string -> Option<ParsedVibe>): Response
  {
    if httpMethod != "POST" then MethodNotAllowed
    else if auth.AuthThrew? then Response(500, ErrorBody(GenericError))
    else if !Authorized(auth) then Response(401, ErrorBody(UnauthorizedError))
    else if !ValidText(body) then Response(400, ErrorBody(TextRequiredError))
    else if !(reply.Content? && reply.isText) then FailureResponse(reply)
    else
      var v := ParseOrFallback(reply.text, parse);
      Response(200, VibeBody(Clamp(v.score), v.reason))
  }

  /** What reaches the model, if the checks let the request through. */
  function SentText(httpMethod: string, auth: AuthLookup, body: RequestBody): Option<string> {
    if httpMethod == "POST" && Authorized(auth) && ValidText(body) then Some(Truncate(body.text.value))
    else None
  }

  /** The handler as the source runs it: early returns, then `vibeData.score` clamped in
      place, then the history and usage writes, whose failures are only logged. */
  method Handle(httpMethod: string, auth: AuthLookup, body: RequestBody, reply: ModelReply,
                parse: string -> Option<ParsedVibe>,
                historyInsertFails: bool, draftUpdateFails: bool, usageInsertFails: bool)
    returns (res: Response, sent: Option<string>, historyWritten: bool)
    ensures res == Outcome(httpMethod, auth, body, reply, parse)
    ensures sent == SentText(httpMethod, auth, body)
    ensures historyWritten <==> res.status == 200 && body.draftId.Some? && body.draftId.value != ""
  {
    sent := None;
    historyWritten := false;
    if httpMethod != "POST" {
      return MethodNotAllowed, sent, historyWritten;
    }
    if auth.AuthThrew? {
      return Response(500, ErrorBody(GenericError)), sent, historyWritten;
    }
    if auth.failed || auth.user.None? {
      return Response(401, ErrorBody(UnauthorizedError)), sent, historyWritten;
    }
    if !body.text.Text? || body.text.value == "" {
      return Response(400, ErrorBody(TextRequiredError)), sent, historyWritten;
    }
    var truncatedText := Truncate(body.text.value);
    sent := Some(truncatedText);
    if !(reply.Content? && reply.isText) {
      return FailureResponse(reply), sent, historyWritten;
    }
    var vibeData := ParseOrFallback(reply.text, parse);
    vibeData := vibeData.(score := Clamp(vibeData.score));
    if body.draftId.Some? && body.draftId.value != "" {
      // Both writes are attempted; an error from either is logged and ignored.
      historyWritten := true;
    }
    // Usage tracking: a failure is caught and logged.
    res := Response(200, VibeBody(vibeData.score, vibeData.reason));
  }

  /** The checks run in the order method, authentication, body: each status is reached
      exactly when the earlier checks passed and its own failed. */
  lemma {:induction false} StatusOrder(httpMethod: string, auth: AuthLookup, body: RequestBody, reply: ModelReply,
                                       parse: string -> Option<ParsedVibe>)
    ensures var r := Outcome(httpMethod, auth, body, reply, parse);
      && (r.status == 405 <==> httpMethod != "POST")
      && (r.status == 401 <==> httpMethod == "POST" && auth.AuthResult? && !Authorized(auth))
      && (r.status == 400 <==> httpMethod == "POST" && Authorized(auth) && !ValidText(body))
      && (r.status == 429 <==> SentText(httpMethod, auth, body).Some? && reply == ProviderError(429))
      && (r.status == 200 <==> SentText(httpMethod, auth, body).Some? && reply.Content? && reply.isText)
      && r.status in {200, 400, 401, 405, 429, 500}
      && (httpMethod == "POST" && auth.AuthThrew? ==> r == Response(500, ErrorBody(GenericError)))
      && (SentText(httpMethod, auth, body).Some? && reply == ProviderError(401) ==>
            r == Response(500, ErrorBody(ConfigError)))
      && (SentText(httpMethod, auth, body).Some? && !(reply.Content? && reply.isText)
          && reply != ProviderError(429) && reply != ProviderError(401) ==>
            r == Response(500, ErrorBody(GenericError)))
  {
  }

  /** A successful answer carries a score in [-1, 1]; when the model's object parses
      with an in-range score, that score and reason come back unchanged. */
  lemma {:induction false} SuccessScoreInRange(httpMethod: string, auth: AuthLookup, body: RequestBody,
                                               reply: ModelReply, parse: string -> Option<ParsedVibe>)
    requires Outcome(httpMethod, auth, body, reply, parse).status == 200
    ensures var b := Outcome(httpMethod, auth, body, reply, parse).body;
      b.VibeBody? && -1.0 <= b.score <= 1.0
    ensures reply.Content? && ExtractJson(reply.text).Some? && parse(ExtractJson(reply.text).value).Some? ==>
      var v := parse(ExtractJson(reply.text).value).value;
      -1.0 <= v.score <= 1.0 ==> Outcome(httpMethod, auth, body, reply, parse).body == VibeBody(v.score, v.reason)
  {
  }

  /** A model reply without a JSON object still succeeds, with the neutral apology. */
  lemma {:induction false} NoJsonFallsBack(httpMethod: string, auth: AuthLookup, body: RequestBody, t: string,
                                           parse: string -> Option<ParsedVibe>)
    requires SentText(httpMethod, auth, body).Some?
    requires forall k :: 0 <= k < |t| ==> t[k] != '{'
    ensures Outcome(httpMethod, auth, body, Content(true, t), parse)
         == Response(200, VibeBody(0.0, Some(ParseFallbackReason)))
  {
    assert ExtractJson(t).None?;
  }

  /** The text sent to the model is a prefix of the request's text of at most 2000
      characters, and the whole text when it is short enough. */
  lemma {:induction false} SentTextIsBoundedPrefix(httpMethod: string, auth: AuthLookup, body: RequestBody)
    requires SentText(httpMethod, auth, body).Some?
    ensures var s := SentText(httpMethod, auth, body).value;
      |s| <= MaxChars && StartsWith(body.text.value, s)
      && (|body.text.value| <= MaxChars ==> s == body.text.value)
  {
  }
}
