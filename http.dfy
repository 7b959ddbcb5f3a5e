/**
 * The boundary to the HTTP requester the client is built on: header and
 * query maps, the request description, the response, and a client object
 * that holds the default headers and base URL and dispatches requests.
 * What the network answers is an oracle fixed when the client is made.
 */
module Http {
  import opened Wrappers

  /** http.Header and url.Values: each key, in canonical form, to its list of values. */
  type MultiMap = map<string, seq<string>>

  /** Header.Get / Values.Get: the first value of the key, or "" when there is none. */
  function Get(m: MultiMap, key: string): string
  {
    if key in m && m[key] != [] then m[key][0] else ""
  }

  /** Header.Set / Values.Set: the key's values become exactly [value]. */
  function Set(m: MultiMap, key: string, value: string): MultiMap
  {
    m[key := [value]]
  }

  /** A parsed URL, kept opaque: it is identified by the text it was parsed from. */
  datatype URL = URL(raw: string)

  /** An io.Reader or io.ReadCloser handle; what it yields is not modelled. */
  datatype Stream = Stream(id: nat)

  datatype Encoding = EncodingRaw | EncodingJSON

  /** httpclient.RequestData, without its context and its decoding target. */
  datatype RequestData = RequestData(
    Method: string,
    FullURL: string,
    Path: string,
    Params: MultiMap,
    Headers: MultiMap,
    ReqReader: Option<Stream>,
    ExpectedStatus: seq<int>,
    RespEncoding: Encoding,
    RespConsume: bool)

  /** http.StatusUnauthorized, the status that makes Request reauthenticate. */
  const StatusUnauthorized := 401

  datatype Response = Response(StatusCode: int, Header: MultiMap, Body: Stream)

  /** An error returned by the requester: a status outside ExpectedStatus, or any other failure. */
  datatype HttpError = InvalidStatus(status: int) | TransportFailure(id: nat)

  /**
   * The (response, error) pair the requester returns. A nil error always
   * comes with a response; an error may come with or without one.
   */
  datatype Outcome = Ok(res: Response) | Failed(partial: Option<Response>, err: HttpError)
  {
    function Res(): Option<Response>
    {
      if Ok? then Some(res) else partial
    }

    function Err(): Option<HttpError>
    {
      if Ok? then None else Some(err)
    }

    /** The retry protocol's test: a response is present and its status is 401. */
    predicate Unauthorized()
      ensures Unauthorized() <==> match this
        case Ok(res) => res.StatusCode == StatusUnauthorized
        case Failed(partial, _) => partial.Some? && partial.value.StatusCode == StatusUnauthorized
    {
      Res().Some? && Res().value.StatusCode == StatusUnauthorized
    }
  }

  /** One dispatch as it went out: the request with the client's default headers and base URL at that moment. */
  datatype Sent = Sent(req: RequestData, headers: MultiMap, baseURL: Option<URL>)

  /** httpclient.HTTPClient: default headers, base URL, and the record of every dispatch. */
  class Client {
    var Headers: MultiMap
    var BaseURL: Option<URL>
    var log: seq<Sent>
    /** The answer to the n-th dispatch, given what was sent. */
    const respond: (nat, Sent) -> Outcome

    constructor (respond: (nat, Sent) -> Outcome)
      ensures Headers == map[] && BaseURL == None && log == []
      ensures this.respond == respond
    {
      Headers := map[];
      BaseURL := None;
      log := [];
      this.respond := respond;
    }

    method Request(req: RequestData) returns (out: Outcome)
      modifies this`log
      ensures log == old(log) + [Sent(req, Headers, BaseURL)]
      ensures out == respond(|old(log)|, Sent(req, Headers, BaseURL))
    {
      var sent := Sent(req, Headers, BaseURL);
      out := respond(|log|, sent);
      log := log + [sent];
    }
  }
}
