/** The shapes of an HTTP exchange as the item operations see them. The
    client itself is not modelled: what it answers is an input. */
module Http {
  import opened Wrappers

  datatype Method = Put | Get | Delete

  datatype Header = Header(name: string, value: string)

  datatype QueryParam = QueryParam(name: string, value: string)

  /** A request handed to the client. `body` is None for a request built
      without a body. */
  datatype Request = Request(
    verb: Method,
    url: string,
    headers: seq<Header>,
    query: seq<QueryParam>,
    body: Option<string>)

  /** The only client the provider ever hands out. */
  datatype HttpClient = DefaultClient

  /** The response body as reading it turns out: its text, or a read failure. */
  datatype Body = Body(text: string) | Unreadable

  /** A received response: numeric status, status line text, body. */
  datatype Response = Response(status: int, statusText: string, body: Body)

  /** How one attempt to issue a request ends: the request could not be
      constructed, the client failed before any response, or a response
      arrived. `cause` is the text of the underlying error. */
  datatype Outcome =
    | BuildFailed(cause: string)
    | SendFailed(cause: string)
    | Received(response: Response)

  /** The values recorded under `name`, in the order they were added. */
  function HeaderValues(hs: seq<Header>, name: string): (vs: seq<string>)
    ensures |vs| <= |hs|
    ensures vs == [] <==> forall i :: 0 <= i < |hs| ==> hs[i].name != name
  {
    if hs == [] then []
    else (if hs[0].name == name then [hs[0].value] else []) + HeaderValues(hs[1..], name)
  }

  function EncodeParam(p: QueryParam): string {
    p.name + "=" + p.value
  }

  /** The raw query text: `name=value` pairs joined with `&`. */
  function EncodeQuery(q: seq<QueryParam>): (s: string)
    ensures s == [] <==> q == []
  {
    if q == [] then []
    else if |q| == 1 then EncodeParam(q[0])
    else EncodeParam(q[0]) + "&" + EncodeQuery(q[1..])
  }
}
