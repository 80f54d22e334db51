/** The remote HTTP API as the client sees it: the records it returns, the
    requests the client sends and the responses it gets back. The transport
    itself is not modelled; a response is an input to the handler that awaits it. */
module Api {
  import opened Js

  /** A property record as the API returns it. */
  datatype Casa = Casa(id: string, nombre: string, precio: string, ubicacion: string, descripcion: string)

  /** What `res.json()` produces: either it throws, or it yields an object of
      which the client reads at most the fields `casas`, `message` and `token`. */
  datatype Payload =
    | Unparseable(reason: string)
    | Json(casas: Option<seq<Casa>>, message: Option<string>, token: Option<string>)

  /** The outcome of one `fetch`: it rejects (network failure), or it resolves
      with a status that is ok (2xx) or not, and a body. */
  datatype Response =
    | NetworkError(reason: string)
    | Reply(ok: bool, payload: Payload)

  /** `res.ok` of a response that resolved. */
  predicate Accepted(resp: Response) {
    resp.Reply? && resp.ok
  }

  datatype HttpMethod = GET | POST | PUT | DELETE

  /** One outgoing call: method, path below the API base URL, the bearer token sent
      in the `Authorization` header (if any) and the JSON object sent as body (if any). */
  datatype Request = Request(verb: HttpMethod, path: string, bearer: Option<string>, body: Option<map<string, string>>)
}
