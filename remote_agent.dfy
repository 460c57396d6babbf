/**
 * The remote-agent tool of the coordinator: it posts a query to another
 * agent's `/tasks` endpoint and hands the `result` field of the JSON reply
 * back to the model. The HTTP exchange itself is not modelled; what is kept
 * is the request it builds and the lookup it performs on the decoded reply.
 */
module RemoteAgent {
  import opened Wrappers

  /** A decoded JSON document. Numbers are kept integral. */
  datatype Json =
    | JNull
    | JBool(b: bool)
    | JNumber(n: int)
    | JString(s: string)
    | JArray(items: seq<Json>)
    | JObject(fields: map<string, Json>)

  /** The text returned when the reply carries no `result` field. */
  const NoResponse: string := "No response from agent"

  /** Why the reply could not be read: `.get` exists only on a JSON object. */
  datatype InvokeError = NotAnObject

  /** The POST the tool sends: the target URL and the JSON body. */
  datatype Request = Request(url: string, body: Json)

  /** The request for `query` in conversation `contextId` to the agent at `agentUrl`. */
  function TaskRequest(agentUrl: string, query: string, contextId: string): (r: Request)
    ensures |r.url| == |agentUrl| + |"/tasks"|
    ensures r.url[..|agentUrl|] == agentUrl && r.url[|agentUrl|..] == "/tasks"
    ensures r.body.JObject? && r.body.fields.Keys == {"message", "context_id"}
    ensures r.body.fields["message"] == JString(query)
    ensures r.body.fields["context_id"] == JString(contextId)
  {
    Request(agentUrl + "/tasks",
            JObject(map["message" := JString(query), "context_id" := JString(contextId)]))
  }

  /**
   * The value the tool returns for a decoded reply: the `result` field when
   * present (whatever its JSON type), the fixed fallback text when absent,
   * and a failure when the reply is not an object at all.
   */
  function ResultOf(reply: Json): (r: Result<Json, InvokeError>)
    ensures r.Success? <==> reply.JObject?
    ensures reply.JObject? && "result" in reply.fields ==> r.value == reply.fields["result"]
    ensures reply.JObject? && "result" !in reply.fields ==> r.value == JString(NoResponse)
  {
    match reply
    case JObject(fields) =>
      Success(if "result" in fields then fields["result"] else JString(NoResponse))
    case _ => Failure(NotAnObject)
  }

  /**
   * A remote agent that answers `{"result": x}`, with or without other
   * fields, yields exactly `x`; a reply that lacks `result` yields the
   * fallback text and never a field of the reply.
   */
  lemma ResultIsReplyField(fields: map<string, Json>, x: string)
    ensures ResultOf(JObject(fields["result" := JString(x)])) == Success(JString(x))
    ensures "result" !in fields ==> ResultOf(JObject(fields)) == Success(JString(NoResponse))
  {
  }

  /**
   * Requests are unambiguous: two equal requests come only from the same
   * agent URL, the same query and the same context identifier.
   */
  lemma RequestCarriesQuery(agentUrl: string, query: string, contextId: string,
                             otherUrl: string, otherQuery: string, otherContext: string)
    requires TaskRequest(agentUrl, query, contextId) == TaskRequest(otherUrl, otherQuery, otherContext)
    ensures agentUrl == otherUrl && query == otherQuery && contextId == otherContext
  {
  }
}
