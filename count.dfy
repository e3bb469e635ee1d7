/** `ot.count`: a search run with `rawResponse` forced on and a page size of
    10, reduced to the `total_count` field of the raw response body. */
module Count {
  import opened Document
  import opened Transport

  /** The per-call settings object that `count` adjusts before searching
      (the merged configuration: lodash's `defaultsDeep` writes the defaults
      into the settings object the caller passed). */
  class SearchSettings {
    var rawResponse: bool
    var page: int
    var pageLimit: int

    constructor (rawResponse: bool, page: int, pageLimit: int)
      ensures this.rawResponse == rawResponse && this.page == page && this.pageLimit == pageLimit
    {
      this.rawResponse := rawResponse;
      this.page := page;
      this.pageLimit := pageLimit;
    }

    /** `config.rawResponse = true; config.pageLimit = 10`. */
    method PrepareForCount()
      modifies this
      ensures rawResponse && pageLimit == 10
      ensures page == old(page)
    {
      rawResponse := true;
      pageLimit := 10;
    }
  }

  /** The checks `ot.search` makes of the response before anything else: a
      transport error or a truthy `res.body.error` is passed on; with
      `rawResponse` on (as `count` sets it) the response itself is returned,
      modelled by its body. */
  function SearchRaw(response: Response): (r: Result<Json>)
    ensures r.Ok? <==> response.Received? && BodyError(response.body).None?
    ensures r.Ok? ==> r.value == response.body
    ensures response.Failed? ==> r == Err(TransportError(response.reason))
    ensures response.Received? && BodyError(response.body).Some? ==>
      r == Err(RemoteError(BodyError(response.body).value))
  {
    match response
    case Failed(reason) => Err(TransportError(reason))
    case Received(body) =>
      match BodyError(body)
      case Some(e) => Err(RemoteError(e))
      case None => Ok(body)
  }

  /** What `count`'s callback makes of the search's answer: an error is
      passed on, a body without `total_count` is the 'No count found in
      response' error, otherwise the count. */
  function CountFrom(response: Response): (r: Result<Json>)
    ensures r.Ok? <==>
      response.Received? && BodyError(response.body).None? && HasField(response.body, "total_count")
    ensures r.Ok? ==> Field(response.body, "total_count") == Some(r.value)
    ensures response.Failed? ==> r == Err(TransportError(response.reason))
    ensures response.Received? && BodyError(response.body).Some? ==>
      r == Err(RemoteError(BodyError(response.body).value))
    ensures r == Err(NoCount) <==>
      response.Received? && BodyError(response.body).None? && !HasField(response.body, "total_count")
  {
    match SearchRaw(response)
    case Err(e) => Err(e)
    case Ok(body) =>
      match Field(body, "total_count")
      case Some(n) => Ok(n)
      case None => Err(NoCount)
  }

  /** `ot.count(search, settings, callback)` once the search has answered
      with `response`. */
  method Count(settings: SearchSettings, response: Response) returns (r: Result<Json>)
    modifies settings
    ensures settings.rawResponse && settings.pageLimit == 10 && settings.page == old(settings.page)
    ensures r == CountFrom(response)
  {
    settings.PrepareForCount();
    r := CountFrom(response);
  }
}
