/** The request shape an endpoint declaration produces: HTTP method (`verb`), URL and body. */
module Http {

  datatype Method = GET | POST | PUT | DELETE

  /** No body, the caller's payload as it is, or the payload wrapped as `{data}`. */
  datatype Body<+B> = NoBody | Payload(value: B) | DataEnvelope(data: B)

  datatype Request<+B> = Request(verb: Method, url: string, body: Body<B>)

  /** An endpoint whose query is a bare URL string is a GET without a body. */
  function Get<B>(url: string): Request<B> {
    Request(GET, url, NoBody)
  }
}
