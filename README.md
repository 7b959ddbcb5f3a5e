# go-swiftclient, modelled in Dafny

A model of the core of a client for the OpenStack Swift object-storage HTTP API:

- the session it keeps: the token header and base URL of its HTTP client, the stored endpoint and credentials, and the flag that allows reauthentication;
- the V1 authentication handshake (`AuthenticateV1`) and `Reauthenticate`;
- the request protocol that, on a 401, reauthenticates once and then retries only requests that have no body stream;
- the request descriptions built by the object operations (`PutContainer`, `ListObjects`, `ObjectInfo`, `GetObject`, `PutObject`, `PutObjectManifest`, `DeleteObject`) and the object paths they use;
- the object descriptor read from response headers (`SwiftObjectFromHeaders`).

Files and modules:

- `wrappers.dfy` (`Wrappers`): `Option` and `Result`.
- `strconv.dfy` (`Strconv`): the two Go library functions whose exact behaviour the core relies on. These are `strconv.ParseInt(s, 10, 0)` on a 64-bit platform, including its saturation on overflow, and the `%d` formatting of an `int64`.
- `http.dfy` (`Http`): the boundary to the HTTP requester. It holds header and query maps, the request description, the response, the `(response, error)` outcome, and the `Client` class. `Client` keeps the default headers, the base URL and a log of every dispatch, and gets its answers from an oracle fixed when it is constructed.
- `types.dfy` (`Types`): `SwiftObject` and `SwiftObjectFromHeaders`.
- `swift.dfy` (`Swift`): paths and request builders, then the session and protocol written as pure functions over a `ClientState` value, then the `Swift` class.
  - The class stores the same state in its own fields and in those of its `Client`.
  - Each of its methods (`AuthenticateV1`, `Reauthenticate`, `Request` and the seven operations) is written imperatively, in the order the source uses.
  - Each method is proved to have exactly the effect of the corresponding pure function (`AuthenticateV1Result`, `ReauthenticateResult`, `RequestResult`).
  - The protocol's properties are proved as lemmas about those functions.

Abstracted, rather than modelled:

- The network. The transport's n-th answer is `respond(n, sent)`, where `sent` is the request together with the client's headers and base URL at that moment.
- `url.Parse`, which becomes the predicate `urlParses`.
- The requester's JSON decoding of a listing body, which becomes `decodeListing`.

Behaviour of the code worth knowing:

- `LastModified` is always set, even when `X-Timestamp` is missing (types.go:24, types.go:31).
- Only a request whose `ReqReader` is nil is retried. No body type counts as replayable (swift.go:87-89).
- The token fallback happens when `X-Auth-Token` is empty, not only when it is absent (swift.go:50-52).
- A `url.Parse` failure leaves the new token installed while the rest of the session is unchanged (swift.go:58-67).

## Model

| member | source | states |
|---|---|---|
| `Strconv.ScanUint` | types.go:22 | the base-10 digit loop of strconv.ParseUint: a value it returns never exceeds 2^64-1 and is at least the value accumulated so far |
| `Strconv.ParseInt` | types.go:22 | strconv.ParseInt(s, 10, 0) with its error ignored: an int64; 0 when nothing follows the sign; negative only when the text starts with "-" |
| `Strconv.ParseIntDecimal` | types.go:22 | an optional sign and decimal digits parse to their signed value, saturated to the int64 bounds on overflow |
| `Strconv.ParseIntNonDecimal` | types.go:22 | a non-digit reached before the digits in front of it overflow makes the parsed value 0 |
| `Strconv.ScanUintOverflow` | types.go:22 | once the digits scanned exceed 2^64-1 the scan stops with a range error, whatever follows |
| `Strconv.ParseIntOverflow` | types.go:22 | leading digits above 2^64-1 saturate the result to the int64 bound of its sign, even when a non-digit follows |
| `Strconv.ParseIntEmptyDigits` | types.go:22 | an empty string, or a bare sign, parses to 0 |
| `Strconv.ScanUintDigits` | types.go:22 | the digit scan on a digit string yields its decimal value, or a range error exactly when the value exceeds 2^64-1 |
| `Strconv.ScanUintNonDigit` | types.go:22 | the digit scan stops with a syntax error at a non-digit when no overflow happened before it |
| `Strconv.Digits` | swift.go:201 | the decimal digits of a natural number are non-empty, start with a digit, and have no leading zero |
| `Strconv.FormatInt` | swift.go:201 | the %d text of an int64 is non-empty and starts with "-" exactly when the number is negative |
| `Strconv.DigitsValue` | swift.go:201 | the digits printed for n are non-empty, all decimal, and denote n |
| `Strconv.ParseFormatInt` | swift.go:201 | parsing the %d text of an int64 gives the same int64 back |
| `Types.TimeFromTimestamp` | types.go:36-41 | the instant is kept opaque and is identified by the X-Timestamp text it is computed from |
| `Types.SwiftObjectFromHeaders` | types.go:21-34 | Name is the path; Hash, ContentType and ObjectManifest are the Etag, Content-Type and X-Object-Manifest values or ""; Bytes is the parsed Content-Length; LastModified is always present; Subdir is "" and Reader is nil |
| `Types.FromHeadersAbsent` | types.go:21-34 | with none of the headers present, the copied fields are "", Bytes is 0, and LastModified is still present |
| `Types.FromHeadersContentLength` | types.go:22 | a Content-Length written as a decimal int64 gives exactly that Bytes |
| `Types.FromHeadersMalformedLength` | types.go:22 | a Content-Length whose first non-digit is reached before the digits in front of it exceed 2^64-1 gives Bytes 0 |
| `Types.FromHeadersOverflowLength` | types.go:22 | a Content-Length whose leading digits exceed 2^64-1 gives MaxInt64, or MinInt64 after a "-", whatever follows the digits |
| `Swift.WithTrailingSlash` | swift.go:60-62 | the result ends in "/"; it is the input when the input already ends in "/", and the input plus "/" otherwise |
| `Swift.WithTrailingSlashIdempotent` | swift.go:147-149 | normalising twice is normalising once, and the result extends the input by at most one character |
| `Swift.Path` | swift.go:115-123 | the object path starts with the container and equals it exactly when the object path is empty; for a non-empty object path it is the container, "/" and the object path, for any container |
| `Swift.PathRoundTrip` | swift.go:115-123 | Path(c, "") is c, and Path(c, p) for a non-empty p is c + "/" + p; for a container without "/", splitting at the first "/" gives back the container and the object path (the first two clauses also hold for every container through `Path`'s own contract) |
| `Swift.RangeHeader` | swift.go:201 | the Range value is "bytes=", then the %d text of Start, a "-", and the %d text of End |
| `Swift.RangeHeaderRoundTrip` | swift.go:199-202 | the header text bytes=Start-End reads back as the same span |
| `Swift.AuthRequest` | swift.go:30-40 | the authentication request is a GET of the endpoint with X-Auth-User and X-Auth-Key set to the credentials as its only headers, no body, and no expected statuses |
| `Swift.PutContainerRequest` | swift.go:125-132 | a PUT of the container path, with no body, that accepts 201 and 202 |
| `Swift.ListObjectsRequest` | swift.go:140-166 | a GET of the container with format=json; prefix is present iff the path is non-empty, and it is the path with a trailing "/"; delimiter=/ is present iff the listing is not recursive; no other parameters |
| `Swift.ObjectInfoRequest` | swift.go:174-181 | a HEAD of Path(container, path) that accepts 200 |
| `Swift.GetObjectRequest` | swift.go:191-202 | a GET of Path(container, path) that accepts 200 and 206, with a Range header iff a span is given |
| `Swift.GetObjectRange` | swift.go:199-202 | the Range header of a ranged fetch reads back as the span requested |
| `Swift.PutObjectRequest` | swift.go:215-223 | a PUT of Path(container, path) whose body reader is the caller's and that accepts 201 |
| `Swift.PutObjectManifestRequest` | swift.go:231-242 | a PUT of Path(container, path) with no body, accepting 201, whose only header is X-Object-Manifest = Path(manifestContainer, manifestPath) |
| `Swift.PutObjectManifestSegments` | swift.go:241-242 | the manifest header gives back the segments' container and prefix |
| `Swift.DeleteObjectRequest` | swift.go:252-259 | a DELETE of Path(container, path) that accepts 204 |
| `Swift.CanRetryRequest` | swift.go:87-89 | a request is retryable exactly when it has no body reader |
| `Swift.RetryableOperations` | swift.go:87-89 | every operation's request is retryable, except an upload with a body reader, which is retryable iff its reader is nil |
| `Swift.Dispatch` | swift.go:42 | one dispatch logs the request with the current headers and base URL, leaves the session alone, and returns the oracle's answer for that dispatch |
| `Swift.ApplyAuthResponse` | swift.go:47-76 | a response with no storage URL or no token is rejected and changes nothing; an unparsable URL changes only the token header; a success installs the token, the storage URL with a trailing "/", the credentials, and the reauthentication flag |
| `Swift.AuthToken` | swift.go:48-52 | the token is X-Auth-Token when that is non-empty, otherwise X-Storage-Token; it is empty only when both are |
| `Swift.AuthTokenFallback` | swift.go:48-52 | the token installed is X-Auth-Token, or X-Storage-Token only when X-Auth-Token is empty |
| `Swift.AuthenticateV1Result` | swift.go:29-45 | authentication makes exactly one dispatch, the authentication request; a transport error is returned unchanged, wrapped as a request error, and leaves the session unchanged |
| `Swift.AuthenticateV1Rejected` | swift.go:54-56 | a rejected response leaves the state as it was apart from the one logged dispatch, and returns the authentication error |
| `Swift.AuthenticateV1Populates` | swift.go:58-76 | after a success the token header is non-empty, the base URL ends in "/", and the session holds the given endpoint and credentials and can reauthenticate |
| `Swift.ReauthenticateResult` | swift.go:79-85 | before any success it returns an error, changes nothing and makes no dispatch; otherwise it is AuthenticateV1 on the stored endpoint, user and key |
| `Swift.ReauthenticateReplaysCredentials` | swift.go:71-84 | after a successful authentication, reauthenticating repeats that authentication with the same endpoint and credentials |
| `Swift.RequestResult` | swift.go:91-113 | one Request adds one to three dispatches to the log and keeps the earlier log; its outcome is the first dispatch's unless a third dispatch (the retry) was made; without a 401 the session is unchanged |
| `Swift.RequestPassthrough` | swift.go:91-94 | without a 401 the first outcome is returned unchanged, after exactly one dispatch and no session change |
| `Swift.RequestBeforeAuthentication` | swift.go:94-103 | a 401 on a client that never authenticated returns the original outcome after one dispatch |
| `Swift.RequestMasksReauthFailure` | swift.go:100-103 | when reauthentication fails the original response and error are returned, never the reauthentication error |
| `Swift.RequestAfterReauth` | swift.go:105-112 | after a successful reauthentication the request is re-dispatched with the new session iff it has no body reader, and the retry's outcome is returned as it is; with a body reader the original outcome is returned |
| `Swift.RequestDispatches` | swift.go:91-113 | one Request makes one to three dispatches: the caller's request, possibly the authentication request for the stored credentials (only after a 401 on a reauthenticatable session), and possibly one retry. The retry needs a retryable request and carries the refreshed session. Any outcome other than the first comes from that retry |
| `Swift.InitialSession` | swift.go:23-27 | the empty session has no base URL, cannot reauthenticate, and satisfies the session invariant |
| `Swift.ApplyAuthResponseInv` | swift.go:58-76 | applying an authentication response keeps the session invariant: any base URL ends in "/", and reauthentication needs a base URL |
| `Swift.AuthenticateV1Inv` | swift.go:29-77 | AuthenticateV1 keeps the session invariant |
| `Swift.ReauthenticateInv` | swift.go:79-85 | Reauthenticate keeps the session invariant |
| `Swift.RequestInv` | swift.go:91-113 | Request, including its reauthentication, keeps the session invariant |
| `Swift.ListObjectsResult` | swift.go:167-171 | an error from the request is returned as is; otherwise the decoded listing is returned |
| `Swift.ObjectInfoResult` | swift.go:182-188 | an error is returned as is; otherwise the descriptor read from the headers, with no reader |
| `Swift.GetObjectResult` | swift.go:204-212 | an error is returned as is; otherwise the descriptor read from the headers, holding the response body as its reader |
| `Swift.Swift.constructor` | swift.go:23-27 | a new client has a fresh HTTP client with no headers and no base URL, and an empty session that cannot reauthenticate |
| `Swift.Swift.AuthenticateV1` | swift.go:29-77 | the imperative handshake has exactly the effect of AuthenticateV1Result on the client's state, including the token being written before the URL is parsed, and keeps the session invariant |
| `Swift.Swift.Reauthenticate` | swift.go:79-85 | has exactly the effect of ReauthenticateResult and keeps the session invariant |
| `Swift.Swift.Request` | swift.go:91-113 | has exactly the effect and the result of RequestResult and keeps the session invariant |
| `Swift.Swift.PutContainer` | swift.go:125-138 | runs the protocol on PutContainerRequest and returns its error |
| `Swift.Swift.ListObjects` | swift.go:140-172 | runs the protocol on ListObjectsRequest and returns ListObjectsResult |
| `Swift.Swift.ObjectInfo` | swift.go:174-189 | runs the protocol on ObjectInfoRequest and returns ObjectInfoResult |
| `Swift.Swift.GetObject` | swift.go:191-213 | runs the protocol on GetObjectRequest and returns GetObjectResult |
| `Swift.Swift.PutObject` | swift.go:215-229 | runs the protocol on PutObjectRequest and returns its error |
| `Swift.Swift.PutObjectManifest` | swift.go:231-250 | runs the protocol on PutObjectManifestRequest and returns its error |
| `Swift.Swift.DeleteObject` | swift.go:252-265 | runs the protocol on DeleteObjectRequest and returns its error |
| `Http.Outcome.Unauthorized` | swift.go:94 | the retry test holds exactly when a response is present, as the success or alongside the error, and its status is 401 |
| `Http.Client.Request` | swift.go:42 | a dispatch appends the request, with the current default headers and base URL, to the log, and returns the oracle's answer for that position |

## Left out

- The HTTP transport itself is not modelled: connections, building the URL from the base URL and path, merging the default headers into the request, checking ExpectedStatus, and draining or decoding the body. Its answer to each dispatch is an oracle argument, so every outcome is possible. The Go pair (nil response, nil error) is excluded by the `Outcome` type, because the source would dereference the nil response.
- `url.Parse` is an abstract predicate. A URL that parses is represented by its text.
- The JSON decoding of a listing into `[]*SwiftObject` is done by the requester, and is an abstract function of the response body. It is left unconstrained, so the model does not promise that listing entries carry no `Reader`; in Go the listing JSON the server sends has no field that would fill it.
- `TimeFromTimestamp` does not model its float64 parsing and scaling (types.go:36-41). The instant is identified by the X-Timestamp text it comes from, so the exact-instant property of types_test.go:13-15 is not stated. Texts that Go maps to the same instant, such as "" (a failed parse) and "0", stay distinct instants in the model.
- `context.Context` is not modelled, including the `context.TODO()` substitution of swift.go:95-98. No concurrency is modelled: the client has no synchronisation around its token header (swift.go:58), and the model assumes one caller at a time.
- Header keys are assumed to be in canonical form already, so http.Header's key canonicalisation is not modelled.
- `ParseInt` models `strconv.ParseInt` with bitSize 0 on a 64-bit platform only.
- `ListObjectsMarker` and `DeleteContainer` are not part of this model. Their source is not among the files modelled.
- The fake Swift server and its node process are a test double, not part of the client.
- Server-side behaviour is not the client's and is not modelled: listing order, delimiter collapsing into `subdir`, marker pagination, manifest concatenation, range slicing, and 404/409 answers.
- The byte content of streams is not modelled. A `Stream` is an opaque handle, so a mid-stream read failure on upload is just one of the transport's possible error outcomes.
