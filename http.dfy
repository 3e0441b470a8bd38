/** What a view hands back to the web framework: a status code and a JSON
    payload. An `abort(code, description)` is a response like any other. */
module Http {
  import opened Models

  datatype Payload =
    | Object(fields: Record)        // a JSON object, e.g. a serialised resource or `{}`
    | Array(items: seq<Record>)     // a JSON list of serialised resources
    | Error(description: string)    // an `abort` with this description; only the 404 handler
                                    // renders it as JSON, `{"error": "Not found"}`

  datatype Response = Response(status: int, payload: Payload)

  /** The application's 404 handler renders every 404 as `{"error": "Not found"}`. */
  const NotFound := Response(404, Error("Not found"))

  function BadRequest(description: string): Response
  {
    Response(400, Error(description))
  }

  /** `jsonify({})`, the answer to a successful delete. */
  const Deleted := Response(200, Object(map[]))
}
