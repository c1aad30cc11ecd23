/** The parts of a webob Response the handlers decide: the status code, the
    header list and the body. */
module Http {
  import opened PyModel

  type Header = (string, string)

  datatype Body =
    | Empty
    | Text(content: string)
    | JsonObject(fields: seq<(string, string)>)
    | JsonList(items: seq<string>)

  datatype Response = Response(status: int, headers: seq<Header>, body: Body)

  /** Response(status=code): no headers of its own and no body. */
  function StatusOnly(code: int): (r: Response)
    ensures r.status == code && r.headers == [] && r.body == Empty
  {
    Response(code, [], Empty)
  }

  /** Response(json={'error': message}, status=code). */
  function JsonError(code: int, message: string): (r: Response)
    ensures r.status == code && r.body == JsonObject([("error", message)])
  {
    Response(code, [], JsonObject([("error", message)]))
  }

  /** The Content-Disposition value that offers filename as a download. */
  function Attachment(filename: string): string {
    "attachment; filename=\"" + filename + "\""
  }

  /** The value of the first header called name. */
  function HeaderValue(headers: seq<Header>, name: string): (v: Option<string>)
    ensures v.None? <==> forall i :: 0 <= i < |headers| ==> headers[i].0 != name
    ensures v.Some? ==> exists i :: 0 <= i < |headers| && headers[i] == (name, v.value)
  {
    if headers == [] then None
    else if headers[0].0 == name then Some(headers[0].1)
    else HeaderValue(headers[1..], name)
  }
}
