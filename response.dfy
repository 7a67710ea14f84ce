/** What a request handler answers: a status code with a JSON object of
    strings, an exception that escapes the handler (the framework then
    answers 500), or no answer yet because the port probe is still
    drawing. */
module Http {
  import opened Py

  datatype Response =
    | Reply(code: int, body: map<string, string>)
    | Unhandled(error: PyError)
    | Spinning

  /** `{key: msg}, code` */
  function Answer(code: int, key: string, msg: string): Response {
    Reply(code, map[key := msg])
  }
}
