/** The boundary to the HTTP client: what a GET hands back, the errors the
    engine reports, and the `res.body.error` test. */
module Transport {
  import opened Document

  /** The outcome of `request.get(url).end(...)`: a transport error `err`,
      or a response whose parsed body is `res.body`. */
  datatype Response = Failed(reason: Json) | Received(body: Json)

  datatype Error =
    | TransportError(reason: Json)   // `err` of the GET
    | RemoteError(error: Json)       // a truthy `res.body.error`
    | NoCount                        // 'No count found in response'
    | OutOfFuel                      // the model's recursion bound was reached

  datatype Result<+T> = Ok(value: T) | Err(error: Error)

  /** `res.body.error`, when it is truthy. */
  function BodyError(body: Json): (r: Option<Json>)
    ensures r.Some? ==> Field(body, "error") == r && Truthy(r.value)
    ensures r.None? ==> !HasField(body, "error") || !Truthy(Field(body, "error").value)
  {
    match Field(body, "error")
    case Some(e) => if Truthy(e) then Some(e) else None
    case None => None
  }
}
