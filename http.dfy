/** The response the handler leaves in `context.res`. */
module Http {

  /** A plain-text body, or the decoded JSON document of the last poll,
      which the host serialises with `Content-Type: application/json`. */
  datatype Body = PlainText(text: string) | JsonBody(document: string)

  datatype Response = Response(status: int, body: Body)

  /** What the catch-all turns an exception with message `message` into. */
  function ServerError(message: string): Response
  {
    Response(500, PlainText("Server error: " + message))
  }
}
