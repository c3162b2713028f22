/**
 * JSON replies as the currency route sends them and the client reads them:
 * a status code and a JSON object whose values are strings, nulls, or
 * something else (such as zod's `details` array).
 */
module Http {
  datatype Json = Str(s: string) | Null | Other

  datatype Response = Response(status: int, body: map<string, Json>)

  /** `response.ok` */
  predicate Ok(r: Response) {
    200 <= r.status <= 299
  }

  /** `NextResponse.json(body)` with the default status. */
  function Reply(body: map<string, Json>): (r: Response)
    ensures Ok(r)
  {
    Response(200, body)
  }

  /** `NextResponse.json({ error }, { status })` */
  function ErrorReply(status: int, error: string): (r: Response)
    ensures "error" in r.body && r.body["error"] == Str(error)
    ensures "message" !in r.body
  {
    Response(status, map["error" := Str(error)])
  }
}
