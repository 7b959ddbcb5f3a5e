/**
 * The Swift client (swift.go): request descriptions for the object
 * operations, the session kept by the client, the V1 authentication
 * handshake, and the request protocol that reauthenticates once on a 401
 * and retries only requests without a body stream.
 *
 * The protocol is first stated on values (ClientState) by pure functions;
 * the Swift class below carries the same state in its fields and those of
 * its HTTP client, and each of its methods is proved to have exactly the
 * effect the corresponding function describes.
 */
module Swift {
  import opened Wrappers
  import opened Strconv
  import opened Http
  import opened Types

  const StatusOK := 200
  const StatusCreated := 201
  const StatusAccepted := 202
  const StatusNoContent := 204
  const StatusPartialContent := 206

  // ---------------------------------------------------------------------
  // Strings

  predicate HasSuffix(s: string, suffix: string)
  {
    |suffix| <= |s| && s[|s| - |suffix|..] == suffix
  }

  /** The string with "/" appended unless it already ends in "/". */
  function WithTrailingSlash(s: string): (r: string)
    ensures HasSuffix(r, "/")
    ensures HasSuffix(s, "/") ==> r == s
    ensures !HasSuffix(s, "/") ==> r == s + "/"
  {
    if HasSuffix(s, "/") then s else s + "/"
  }

  lemma WithTrailingSlashIdempotent(s: string)
    ensures WithTrailingSlash(WithTrailingSlash(s)) == WithTrailingSlash(s)
    ensures |WithTrailingSlash(s)| <= |s| + 1 && WithTrailingSlash(s)[..|s|] == s
  {
  }

  /** The first index at or after from where c occurs in s. */
  function IndexOf(s: string, c: char, from: nat): (r: Option<nat>)
    requires from <= |s|
    ensures r.Some? ==> from <= r.value < |s| && s[r.value] == c
    ensures r.Some? ==> forall i :: from <= i < r.value ==> s[i] != c
    ensures r.None? ==> forall i :: from <= i < |s| ==> s[i] != c
    decreases |s| - from
  {
    if from == |s| then None
    else if s[from] == c then Some(from)
    else IndexOf(s, c, from + 1)
  }

  lemma IndexOfFirst(s: string, c: char, from: nat, j: nat)
    requires from <= j < |s| && s[j] == c
    requires forall i :: from <= i < j ==> s[i] != c
    ensures IndexOf(s, c, from) == Some(j)
  {
  }

  lemma IndexOfAbsent(s: string, c: char, from: nat)
    requires from <= |s|
    requires forall i :: from <= i < |s| ==> s[i] != c
    ensures IndexOf(s, c, from) == None
  {
  }

  // ---------------------------------------------------------------------
  // Paths

  /** The request path of an object: the container, then "/" and the object path when it is not empty. */
  function Path(container: string, path: string): (p: string)
    ensures |p| >= |container| && p[..|container|] == container
    ensures path == "" <==> p == container
    ensures path != "" ==> p == container + "/" + path
  {
    if path != "" then container + "/" + path else container
  }

  /** The reading of a request path the server applies: the container is everything before the first "/". */
  function SplitPath(p: string): (string, string)
  {
    match IndexOf(p, '/', 0)
    case None => (p, "")
    case Some(j) => (p[..j], p[j + 1..])
  }

  /** For a container name without "/", Path loses nothing: the container and object path are recovered. */
  lemma PathRoundTrip(container: string, path: string)
    requires '/' !in container
    ensures Path(container, "") == container
    ensures path != "" ==> Path(container, path) == container + "/" + path
    ensures SplitPath(Path(container, path)) == (container, path)
  {
    var p := Path(container, path);
    if path == "" {
      IndexOfAbsent(p, '/', 0);
    } else {
      var j := |container|;
      IndexOfFirst(p, '/', 0, j);
      assert p[..j] == container;
      assert p[j + 1..] == path;
    }
  }

  // ---------------------------------------------------------------------
  // Request descriptions

  /** ioutils.FileSpan: an inclusive byte range. */
  datatype FileSpan = FileSpan(Start: Int64, End: Int64)

  /** The value of the Range header for a span: bytes=Start-End. */
  function RangeHeader(span: FileSpan): (v: string)
    ensures |v| > 6 && v[..6] == "bytes="
    ensures var r := v[6..]; exists j :: 0 < j < |r| && r[j] == '-' && r[..j] == FormatInt(span.Start) && r[j + 1..] == FormatInt(span.End)
  {
    var a, b := FormatInt(span.Start), FormatInt(span.End);
    var v := "bytes=" + a + "-" + b;
    assert v[6..] == a + "-" + b;
    assert v[6..][..|a|] == a && v[6..][|a| + 1..] == b;
    v
  }

  /** How a server reads a Range header of the form RangeHeader writes. */
  function ParseRangeHeader(v: string): Option<FileSpan>
  {
    if |v| < 6 || v[..6] != "bytes=" then None
    else
      var r := v[6..];
      if r == "" then None
      else match IndexOf(r, '-', 1)
        case None => None
        case Some(j) => Some(FileSpan(ParseInt(r[..j]), ParseInt(r[j + 1..])))
  }

  lemma FormatIntShape(n: Int64)
    ensures FormatInt(n) != ""
    ensures forall i :: 1 <= i < |FormatInt(n)| ==> FormatInt(n)[i] != '-'
  {
    if n < 0 {
      DigitsValue(-(n as int));
    } else {
      DigitsValue(n);
    }
  }

  /** The Range header carries the span exactly: reading it back gives the span. */
  lemma RangeHeaderRoundTrip(span: FileSpan)
    ensures ParseRangeHeader(RangeHeader(span)) == Some(span)
  {
    var a, b := FormatInt(span.Start), FormatInt(span.End);
    var v := RangeHeader(span);
    assert v[..6] == "bytes=";
    var r := v[6..];
    assert r == a + "-" + b;
    FormatIntShape(span.Start);
    IndexOfFirst(r, '-', 1, |a|);
    assert r[..|a|] == a;
    assert r[|a| + 1..] == b;
    ParseFormatInt(span.Start);
    ParseFormatInt(span.End);
  }

  function AuthRequest(endpoint: string, user: string, key: string): (r: RequestData)
    ensures r.Method == "GET" && r.FullURL == endpoint && r.ReqReader == None && r.RespConsume
    ensures Get(r.Headers, "X-Auth-User") == user && Get(r.Headers, "X-Auth-Key") == key
    ensures r.Headers.Keys == {"X-Auth-User", "X-Auth-Key"} && r.ExpectedStatus == []
  {
    var headers := Set(Set(map[], "X-Auth-User", user), "X-Auth-Key", key);
    RequestData("GET", endpoint, "", map[], headers, None, [], EncodingRaw, true)
  }

  /** httpclient.RequestData with the fields the object operations leave at their zero values. */
  function Operation(verb: string, path: string, expected: seq<int>): RequestData
  {
    RequestData(verb, "", path, map[], map[], None, expected, EncodingRaw, true)
  }

  function PutContainerRequest(container: string): (r: RequestData)
    ensures r.Method == "PUT" && r.Path == container && r.ReqReader == None
    ensures r.ExpectedStatus == [StatusCreated, StatusAccepted]
  {
    Operation("PUT", Path(container, ""), [StatusCreated, StatusAccepted])
  }

  /**
   * The listing request: format=json always; prefix, ending in "/", only
   * for a non-empty path; delimiter=/ exactly when not recursive.
   */
  function ListObjectsRequest(container: string, path: string, recursive: bool): (r: RequestData)
    ensures r.Method == "GET" && r.Path == container && r.ReqReader == None
    ensures r.ExpectedStatus == [StatusOK] && r.RespEncoding == EncodingJSON
    ensures r.Params.Keys <= {"format", "prefix", "delimiter"}
    ensures "format" in r.Params && r.Params["format"] == ["json"]
    ensures "prefix" in r.Params <==> path != ""
    ensures path != "" ==> r.Params["prefix"] == [WithTrailingSlash(path)]
    ensures "prefix" in r.Params ==> HasSuffix(Get(r.Params, "prefix"), "/")
    ensures "delimiter" in r.Params <==> !recursive
    ensures !recursive ==> r.Params["delimiter"] == ["/"]
  {
    var params := Set(map[], "format", "json");
    var params := if path != "" then Set(params, "prefix", WithTrailingSlash(path)) else params;
    var params := if !recursive then Set(params, "delimiter", "/") else params;
    RequestData("GET", "", Path(container, ""), params, map[], None, [StatusOK], EncodingJSON, false)
  }

  function ObjectInfoRequest(container: string, path: string): (r: RequestData)
    ensures r.Method == "HEAD" && r.Path == Path(container, path) && r.ReqReader == None
    ensures r.ExpectedStatus == [StatusOK]
  {
    Operation("HEAD", Path(container, path), [StatusOK])
  }

  /** The fetch request: a Range header exactly when a span is given. */
  function GetObjectRequest(container: string, path: string, span: Option<FileSpan>): (r: RequestData)
    ensures r.Method == "GET" && r.Path == Path(container, path) && r.ReqReader == None
    ensures r.ExpectedStatus == [StatusOK, StatusPartialContent]
    ensures r.Headers.Keys <= {"Range"}
    ensures "Range" in r.Headers <==> span.Some?
    ensures span.Some? ==> Get(r.Headers, "Range") == RangeHeader(span.value)
  {
    var headers := if span.Some? then Set(map[], "Range", RangeHeader(span.value)) else map[];
    RequestData("GET", "", Path(container, path), map[], headers, None,
                [StatusOK, StatusPartialContent], EncodingRaw, false)
  }

  function PutObjectRequest(container: string, path: string, reader: Option<Stream>): (r: RequestData)
    ensures r.Method == "PUT" && r.Path == Path(container, path) && r.ReqReader == reader
    ensures r.ExpectedStatus == [StatusCreated]
  {
    Operation("PUT", Path(container, path), [StatusCreated]).(ReqReader := reader)
  }

  /** The manifest upload: an empty body and an X-Object-Manifest header naming the segments' container and prefix. */
  function PutObjectManifestRequest(container: string, path: string,
                                    manifestContainer: string, manifestPath: string): (r: RequestData)
    ensures r.Method == "PUT" && r.Path == Path(container, path) && r.ReqReader == None
    ensures r.ExpectedStatus == [StatusCreated]
    ensures r.Headers.Keys == {"X-Object-Manifest"}
    ensures Get(r.Headers, "X-Object-Manifest") == Path(manifestContainer, manifestPath)
  {
    var manifest := Path(manifestContainer, manifestPath);
    Operation("PUT", Path(container, path), [StatusCreated]).(Headers := Set(map[], "X-Object-Manifest", manifest))
  }

  function DeleteObjectRequest(container: string, path: string): (r: RequestData)
    ensures r.Method == "DELETE" && r.Path == Path(container, path) && r.ReqReader == None
    ensures r.ExpectedStatus == [StatusNoContent]
  {
    Operation("DELETE", Path(container, path), [StatusNoContent])
  }

  /** The Range header of a ranged fetch reads back as the span asked for. */
  lemma GetObjectRange(container: string, path: string, span: FileSpan)
    ensures ParseRangeHeader(Get(GetObjectRequest(container, path, Some(span)).Headers, "Range")) == Some(span)
  {
    RangeHeaderRoundTrip(span);
  }

  /** The manifest header names the segments' container and prefix, recoverable when the container has no "/". */
  lemma PutObjectManifestSegments(container: string, path: string, manifestContainer: string, manifestPath: string)
    requires '/' !in manifestContainer
    ensures var r := PutObjectManifestRequest(container, path, manifestContainer, manifestPath);
            SplitPath(Get(r.Headers, "X-Object-Manifest")) == (manifestContainer, manifestPath)
  {
    PathRoundTrip(manifestContainer, manifestPath);
  }

  /** A request may be sent again only when it has no body stream, which its first dispatch consumed. */
  predicate CanRetryRequest(req: RequestData)
    ensures CanRetryRequest(req) <==> req.ReqReader.None?
  {
    req.ReqReader == None
  }

  /** Of the object operations, only an upload with a body stream is not retryable. */
  lemma RetryableOperations(container: string, path: string, recursive: bool, span: Option<FileSpan>,
                            reader: Option<Stream>, manifestContainer: string, manifestPath: string)
    ensures CanRetryRequest(PutContainerRequest(container))
    ensures CanRetryRequest(ListObjectsRequest(container, path, recursive))
    ensures CanRetryRequest(ObjectInfoRequest(container, path))
    ensures CanRetryRequest(GetObjectRequest(container, path, span))
    ensures CanRetryRequest(PutObjectManifestRequest(container, path, manifestContainer, manifestPath))
    ensures CanRetryRequest(DeleteObjectRequest(container, path))
    ensures CanRetryRequest(PutObjectRequest(container, path, reader)) <==> reader == None
  {
  }

  // ---------------------------------------------------------------------
  // Session and protocol, on values

  /** What the client knows between calls: its HTTP client's default headers and base URL, and its credentials. */
  datatype Session = Session(
    headers: MultiMap,
    baseURL: Option<URL>,
    canReauthenticate: bool,
    endpoint: string,
    user: string,
    key: string)

  /** The session together with every dispatch made so far. */
  datatype ClientState = ClientState(session: Session, log: seq<Sent>)

  /** What lies outside the client: the requester's answers and url.Parse's verdict. */
  datatype Env = Env(respond: (nat, Sent) -> Outcome, urlParses: string -> bool)

  datatype Error =
    | AuthenticationFailed
    | NotAuthenticatedYet
    | InvalidURL(url: string)
    | RequestFailed(err: HttpError)

  function CurrentSent(st: ClientState, req: RequestData): Sent
  {
    Sent(req, st.session.headers, st.session.baseURL)
  }

  /** One dispatch through the HTTP client: it is logged and answered by the oracle. */
  function Dispatch(st: ClientState, env: Env, req: RequestData): (r: (ClientState, Outcome))
    ensures r.0.session == st.session && r.0.log == st.log + [CurrentSent(st, req)]
    ensures r.1 == env.respond(|st.log|, CurrentSent(st, req))
  {
    (st.(log := st.log + [CurrentSent(st, req)]), env.respond(|st.log|, CurrentSent(st, req)))
  }

  /** The token of an authentication response: X-Auth-Token, or X-Storage-Token when that is empty. */
  function AuthToken(header: MultiMap): (token: string)
    ensures Get(header, "X-Auth-Token") != "" ==> token == Get(header, "X-Auth-Token")
    ensures Get(header, "X-Auth-Token") == "" ==> token == Get(header, "X-Storage-Token")
    ensures token == "" <==> Get(header, "X-Auth-Token") == "" && Get(header, "X-Storage-Token") == ""
  {
    var token := Get(header, "X-Auth-Token");
    if token == "" then Get(header, "X-Storage-Token") else token
  }

  /**
   * The effect of an authentication response on the session. It is
   * rejected, changing nothing, without a storage URL or a token. Otherwise
   * the token is installed first; only if the storage URL, with its trailing
   * "/", parses are the base URL, the credentials and the reauthentication
   * flag set.
   */
  function ApplyAuthResponse(s: Session, endpoint: string, user: string, key: string,
                             header: MultiMap, urlParses: string -> bool): (r: (Session, Option<Error>))
    ensures var storageURL, token := Get(header, "X-Storage-Url"), AuthToken(header);
            && (storageURL == "" || token == "" ==> r == (s, Some(AuthenticationFailed)))
            && (storageURL != "" && token != "" && !urlParses(WithTrailingSlash(storageURL)) ==>
                  r == (s.(headers := Set(s.headers, "X-Auth-Token", token)),
                        Some(InvalidURL(WithTrailingSlash(storageURL)))))
            && (r.1 == None <==> storageURL != "" && token != "" && urlParses(WithTrailingSlash(storageURL)))
            && (r.1 == None ==>
                  r.0 == Session(Set(s.headers, "X-Auth-Token", token), Some(URL(WithTrailingSlash(storageURL))),
                                 true, endpoint, user, key))
  {
    var storageURL := Get(header, "X-Storage-Url");
    var token := AuthToken(header);
    if storageURL == "" || token == "" then (s, Some(AuthenticationFailed))
    else
      var s := s.(headers := Set(s.headers, "X-Auth-Token", token));
      var storageURL := WithTrailingSlash(storageURL);
      if !urlParses(storageURL) then (s, Some(InvalidURL(storageURL)))
      else (s.(baseURL := Some(URL(storageURL)), canReauthenticate := true,
               endpoint := endpoint, user := user, key := key), None)
  }

  /** The token the session installs is X-Storage-Token only when X-Auth-Token is empty. */
  lemma AuthTokenFallback(s: Session, endpoint: string, user: string, key: string,
                          header: MultiMap, urlParses: string -> bool)
    requires ApplyAuthResponse(s, endpoint, user, key, header, urlParses).1 == None
    ensures var h := ApplyAuthResponse(s, endpoint, user, key, header, urlParses).0.headers;
            && (Get(header, "X-Auth-Token") != "" ==> Get(h, "X-Auth-Token") == Get(header, "X-Auth-Token"))
            && (Get(header, "X-Auth-Token") == "" ==> Get(h, "X-Auth-Token") == Get(header, "X-Storage-Token"))
  {
  }

  /** AuthenticateV1: one GET to the endpoint, then the response applied to the session. */
  function AuthenticateV1Result(st: ClientState, env: Env, endpoint: string, user: string, key: string)
    : (r: (ClientState, Option<Error>))
    ensures r.0.log == st.log + [CurrentSent(st, AuthRequest(endpoint, user, key))]
    ensures env.respond(|st.log|, CurrentSent(st, AuthRequest(endpoint, user, key))).Failed? ==>
              r.0.session == st.session
              && r.1 == Some(RequestFailed(env.respond(|st.log|, CurrentSent(st, AuthRequest(endpoint, user, key))).err))
  {
    var (st1, out) := Dispatch(st, env, AuthRequest(endpoint, user, key));
    match out
    case Failed(_, e) => (st1, Some(RequestFailed(e)))
    case Ok(res) =>
      var (s, err) := ApplyAuthResponse(st1.session, endpoint, user, key, res.Header, env.urlParses);
      (st1.(session := s), err)
  }

  /** Reauthenticate: an error, with no dispatch, before the first success; otherwise AuthenticateV1 on the stored credentials. */
  function ReauthenticateResult(st: ClientState, env: Env): (r: (ClientState, Option<Error>))
    ensures !st.session.canReauthenticate ==> r == (st, Some(NotAuthenticatedYet))
    ensures st.session.canReauthenticate ==>
              r == AuthenticateV1Result(st, env, st.session.endpoint, st.session.user, st.session.key)
  {
    if !st.session.canReauthenticate then (st, Some(NotAuthenticatedYet))
    else AuthenticateV1Result(st, env, st.session.endpoint, st.session.user, st.session.key)
  }

  /**
   * Request: dispatch once; on a 401 reauthenticate; if that fails return
   * the first outcome; if it succeeds, send the request again when it has
   * no body stream and return what that second dispatch returns.
   */
  function RequestResult(st: ClientState, env: Env, req: RequestData): (r: (ClientState, Outcome))
    ensures |st.log| + 1 <= |r.0.log| <= |st.log| + 3 && r.0.log[..|st.log|] == st.log
    ensures r.1 == env.respond(|st.log|, CurrentSent(st, req)) || |r.0.log| == |st.log| + 3
    ensures !env.respond(|st.log|, CurrentSent(st, req)).Unauthorized() ==> r.0.session == st.session
  {
    var (st1, first) := Dispatch(st, env, req);
    if first.Unauthorized() then
      var (st2, reauthErr) := ReauthenticateResult(st1, env);
      if reauthErr.Some? then (st2, first)
      else if CanRetryRequest(req) then Dispatch(st2, env, req)
      else (st2, first)
    else (st1, first)
  }

  function FirstOutcome(st: ClientState, env: Env, req: RequestData): Outcome
  {
    env.respond(|st.log|, CurrentSent(st, req))
  }

  /** The state after the first dispatch, from which reauthentication starts. */
  function AfterFirst(st: ClientState, req: RequestData): ClientState
  {
    st.(log := st.log + [CurrentSent(st, req)])
  }

  /** Without a 401 the first outcome is returned as it is, after exactly one dispatch and no session change. */
  lemma RequestPassthrough(st: ClientState, env: Env, req: RequestData)
    requires !FirstOutcome(st, env, req).Unauthorized()
    ensures RequestResult(st, env, req) == (AfterFirst(st, req), FirstOutcome(st, env, req))
  {
  }

  /** A 401 before any successful authentication is returned as it is, after one dispatch. */
  lemma RequestBeforeAuthentication(st: ClientState, env: Env, req: RequestData)
    requires FirstOutcome(st, env, req).Unauthorized() && !st.session.canReauthenticate
    ensures RequestResult(st, env, req) == (AfterFirst(st, req), FirstOutcome(st, env, req))
  {
  }

  /** When reauthentication fails the caller gets the original response and error, never the reauthentication error. */
  lemma RequestMasksReauthFailure(st: ClientState, env: Env, req: RequestData)
    requires FirstOutcome(st, env, req).Unauthorized()
    requires ReauthenticateResult(AfterFirst(st, req), env).1.Some?
    ensures RequestResult(st, env, req) ==
              (ReauthenticateResult(AfterFirst(st, req), env).0, FirstOutcome(st, env, req))
    ensures RequestResult(st, env, req).1.Err() == FirstOutcome(st, env, req).Err()
  {
  }

  /**
   * After a successful reauthentication the request is sent once more,
   * carrying the new session, exactly when it has no body stream, and the
   * retry's outcome is returned as it is; otherwise the original outcome is.
   */
  lemma RequestAfterReauth(st: ClientState, env: Env, req: RequestData)
    requires FirstOutcome(st, env, req).Unauthorized()
    requires ReauthenticateResult(AfterFirst(st, req), env).1 == None
    ensures var st2 := ReauthenticateResult(AfterFirst(st, req), env).0;
            && st2.session.canReauthenticate
            && (CanRetryRequest(req) ==> RequestResult(st, env, req) == Dispatch(st2, env, req))
            && (!CanRetryRequest(req) ==> RequestResult(st, env, req) == (st2, FirstOutcome(st, env, req)))
  {
  }

  /**
   * The dispatches one Request makes: the caller's request, then at most
   * the authentication request for the stored credentials, then at most the
   * caller's request again, which needs a retryable request and carries the
   * session the reauthentication left. Any other outcome than the first is
   * the retry's.
   */
  lemma {:induction false} RequestDispatches(st: ClientState, env: Env, req: RequestData)
    ensures var (st', out) := RequestResult(st, env, req);
            var n := |st.log|;
            && n + 1 <= |st'.log| <= n + 3
            && st'.log[..n] == st.log
            && st'.log[n] == CurrentSent(st, req)
            && (|st'.log| >= n + 2 ==>
                  FirstOutcome(st, env, req).Unauthorized() && st.session.canReauthenticate
                  && st'.log[n + 1].req == AuthRequest(st.session.endpoint, st.session.user, st.session.key))
            && (|st'.log| == n + 3 ==>
                  CanRetryRequest(req) && st'.session.canReauthenticate
                  && st'.log[n + 2] == CurrentSent(st', req)
                  && out == env.respond(n + 2, st'.log[n + 2]))
            && (|st'.log| < n + 3 ==> out == FirstOutcome(st, env, req))
  {
    var st1 := AfterFirst(st, req);
    var n := |st.log|;
    if FirstOutcome(st, env, req).Unauthorized() && st.session.canReauthenticate {
      var (st2, err) := ReauthenticateResult(st1, env);
      assert st2.log == st1.log + [CurrentSent(st1, AuthRequest(st.session.endpoint, st.session.user, st.session.key))];
      if err == None && CanRetryRequest(req) {
        var st3 := Dispatch(st2, env, req).0;
        assert st3.log == st2.log + [CurrentSent(st2, req)];
        assert st3.log[..n] == st.log;
      } else {
        assert st2.log[..n] == st.log;
      }
    } else {
      assert st1.log[..n] == st.log;
    }
  }

  /** A successful authentication leaves a token, a base URL ending in "/", and a session that can reauthenticate. */
  lemma AuthenticateV1Populates(st: ClientState, env: Env, endpoint: string, user: string, key: string)
    requires AuthenticateV1Result(st, env, endpoint, user, key).1 == None
    ensures var s := AuthenticateV1Result(st, env, endpoint, user, key).0.session;
            && Get(s.headers, "X-Auth-Token") != ""
            && s.baseURL.Some? && HasSuffix(s.baseURL.value.raw, "/")
            && s.canReauthenticate && s.endpoint == endpoint && s.user == user && s.key == key
  {
  }

  /** After a successful authentication, reauthenticating repeats it with the same endpoint and credentials. */
  lemma ReauthenticateReplaysCredentials(st: ClientState, env: Env, endpoint: string, user: string, key: string)
    requires AuthenticateV1Result(st, env, endpoint, user, key).1 == None
    ensures var st1 := AuthenticateV1Result(st, env, endpoint, user, key).0;
            ReauthenticateResult(st1, env) == AuthenticateV1Result(st1, env, endpoint, user, key)
  {
  }

  /** A rejected authentication response leaves the session as it was; only the dispatch is recorded. */
  lemma AuthenticateV1Rejected(st: ClientState, env: Env, endpoint: string, user: string, key: string)
    requires var out := env.respond(|st.log|, CurrentSent(st, AuthRequest(endpoint, user, key)));
             out.Ok? && (Get(out.res.Header, "X-Storage-Url") == "" || AuthToken(out.res.Header) == "")
    ensures AuthenticateV1Result(st, env, endpoint, user, key) ==
              (AfterFirst(st, AuthRequest(endpoint, user, key)), Some(AuthenticationFailed))
  {
  }

  /**
   * What holds of every session the client reaches: a base URL, once set,
   * ends in "/", and the session can reauthenticate only with a base URL,
   * which only a successful authentication sets.
   */
  predicate SessionInv(s: Session)
  {
    && (s.baseURL.Some? ==> HasSuffix(s.baseURL.value.raw, "/"))
    && (s.canReauthenticate ==> s.baseURL.Some?)
  }

  function InitialSession(): (s: Session)
    ensures SessionInv(s) && !s.canReauthenticate && s.baseURL == None
  {
    Session(map[], None, false, "", "", "")
  }

  lemma ApplyAuthResponseInv(s: Session, endpoint: string, user: string, key: string,
                             header: MultiMap, urlParses: string -> bool)
    ensures SessionInv(s) ==> SessionInv(ApplyAuthResponse(s, endpoint, user, key, header, urlParses).0)
  {
  }

  lemma AuthenticateV1Inv(st: ClientState, env: Env, endpoint: string, user: string, key: string)
    ensures SessionInv(st.session) ==> SessionInv(AuthenticateV1Result(st, env, endpoint, user, key).0.session)
  {
    var out := env.respond(|st.log|, CurrentSent(st, AuthRequest(endpoint, user, key)));
    if out.Ok? {
      ApplyAuthResponseInv(st.session, endpoint, user, key, out.res.Header, env.urlParses);
    }
  }

  lemma ReauthenticateInv(st: ClientState, env: Env)
    ensures SessionInv(st.session) ==> SessionInv(ReauthenticateResult(st, env).0.session)
  {
    if st.session.canReauthenticate {
      AuthenticateV1Inv(st, env, st.session.endpoint, st.session.user, st.session.key);
    }
  }

  /** Request, including its reauthentication, keeps the session invariant. */
  lemma RequestInv(st: ClientState, env: Env, req: RequestData)
    ensures SessionInv(st.session) ==> SessionInv(RequestResult(st, env, req).0.session)
  {
    ReauthenticateInv(AfterFirst(st, req), env);
  }

  // ---------------------------------------------------------------------
  // What the operations return, given the protocol's outcome

  function ListObjectsResult(out: Outcome, decodeListing: Stream -> seq<SwiftObject>)
    : (r: Result<seq<SwiftObject>, HttpError>)
    ensures r.Failure? <==> out.Failed?
    ensures out.Failed? ==> r.error == out.err
    ensures out.Ok? ==> r.value == decodeListing(out.res.Body)
  {
    match out
    case Failed(_, e) => Failure(e)
    case Ok(res) => Success(decodeListing(res.Body))
  }

  /** ObjectInfo's descriptor: read from the headers, with no body stream. */
  function ObjectInfoResult(path: string, out: Outcome): (r: Result<SwiftObject, HttpError>)
    ensures r.Failure? <==> out.Failed?
    ensures out.Failed? ==> r.error == out.err
    ensures r.Success? ==> r.value == SwiftObjectFromHeaders(path, out.res.Header) && r.value.Reader == None
  {
    match out
    case Failed(_, e) => Failure(e)
    case Ok(res) => Success(SwiftObjectFromHeaders(path, res.Header))
  }

  /** GetObject's descriptor: read from the headers, and the only one that holds the response body. */
  function GetObjectResult(path: string, out: Outcome): (r: Result<SwiftObject, HttpError>)
    ensures r.Failure? <==> out.Failed?
    ensures out.Failed? ==> r.error == out.err
    ensures r.Success? ==> r.value == SwiftObjectFromHeaders(path, out.res.Header).(Reader := Some(out.res.Body))
    ensures r.Success? ==> r.value.Name == path && r.value.Subdir == "" && r.value.Reader.Some?
  {
    match out
    case Failed(_, e) => Failure(e)
    case Ok(res) => Success(SwiftObjectFromHeaders(path, res.Header).(Reader := Some(res.Body)))
  }

  // ---------------------------------------------------------------------
  // The client object

  class Swift {
    const HTTPClient: Client
    const urlParses: string -> bool
    /** The requester's JSON decoding of a listing body. */
    const decodeListing: Stream -> seq<SwiftObject>
    var canReauthenticate: bool
    var endpoint: string
    var user: string
    var key: string

    function State(): ClientState
      reads this, HTTPClient
    {
      ClientState(Session(HTTPClient.Headers, HTTPClient.BaseURL, canReauthenticate, endpoint, user, key),
                  HTTPClient.log)
    }

    function Environment(): Env
    {
      Env(HTTPClient.respond, urlParses)
    }

    /** NewSwift: a fresh HTTP client and an empty session. */
    constructor (respond: (nat, Sent) -> Outcome, urlParses: string -> bool,
                 decodeListing: Stream -> seq<SwiftObject>)
      ensures fresh(HTTPClient)
      ensures State() == ClientState(InitialSession(), [])
      ensures Environment().respond == respond && Environment().urlParses == urlParses && this.decodeListing == decodeListing
    {
      HTTPClient := new Client(respond);
      this.urlParses := urlParses;
      this.decodeListing := decodeListing;
      canReauthenticate := false;
      endpoint, user, key := "", "", "";
    }

    method AuthenticateV1(endpoint: string, user: string, key: string) returns (err: Option<Error>)
      modifies this, HTTPClient
      ensures (State(), err) == AuthenticateV1Result(old(State()), Environment(), endpoint, user, key)
      ensures SessionInv(old(State()).session) ==> SessionInv(State().session)
    {
      AuthenticateV1Inv(State(), Environment(), endpoint, user, key);
      var headers := Set(Set(map[], "X-Auth-User", user), "X-Auth-Key", key);
      var req := RequestData("GET", endpoint, "", map[], headers, None, [], EncodingRaw, true);
      assert req == AuthRequest(endpoint, user, key);
      var out := HTTPClient.Request(req);
      if out.Failed? {
        return Some(RequestFailed(out.err));
      }
      var storageURL := Get(out.res.Header, "X-Storage-Url");
      var authToken := Get(out.res.Header, "X-Auth-Token");
      if authToken == "" {
        authToken := Get(out.res.Header, "X-Storage-Token");
      }
      if storageURL == "" || authToken == "" {
        return Some(AuthenticationFailed);
      }
      HTTPClient.Headers := Set(HTTPClient.Headers, "X-Auth-Token", authToken);
      if !HasSuffix(storageURL, "/") {
        storageURL := storageURL + "/";
      }
      if !urlParses(storageURL) {
        return Some(InvalidURL(storageURL));
      }
      HTTPClient.BaseURL := Some(URL(storageURL));
      canReauthenticate := true;
      this.endpoint := endpoint;
      this.user := user;
      this.key := key;
      return None;
    }

    method Reauthenticate() returns (err: Option<Error>)
      modifies this, HTTPClient
      ensures (State(), err) == ReauthenticateResult(old(State()), Environment())
      ensures SessionInv(old(State()).session) ==> SessionInv(State().session)
    {
      if !canReauthenticate {
        return Some(NotAuthenticatedYet);
      }
      err := AuthenticateV1(endpoint, user, key);
    }

    method Request(req: RequestData) returns (out: Outcome)
      modifies this, HTTPClient
      ensures (State(), out) == RequestResult(old(State()), Environment(), req)
      ensures SessionInv(old(State()).session) ==> SessionInv(State().session)
    {
      RequestInv(State(), Environment(), req);
      out := HTTPClient.Request(req);
      if out.Unauthorized() {
        var reauthErr := Reauthenticate();
        if reauthErr.Some? {
          return;
        }
        if CanRetryRequest(req) {
          out := HTTPClient.Request(req);
          return;
        }
      }
    }

    method PutContainer(container: string) returns (err: Option<HttpError>)
      modifies this, HTTPClient
      ensures var (st, out) := RequestResult(old(State()), Environment(), PutContainerRequest(container));
              State() == st && err == out.Err()
    {
      var out := Request(PutContainerRequest(container));
      err := out.Err();
    }

    method ListObjects(container: string, path: string, recursive: bool)
      returns (objects: Result<seq<SwiftObject>, HttpError>)
      modifies this, HTTPClient
      ensures var (st, out) := RequestResult(old(State()), Environment(), ListObjectsRequest(container, path, recursive));
              State() == st && objects == ListObjectsResult(out, decodeListing)
    {
      var out := Request(ListObjectsRequest(container, path, recursive));
      objects := ListObjectsResult(out, decodeListing);
    }

    method ObjectInfo(container: string, path: string) returns (info: Result<SwiftObject, HttpError>)
      modifies this, HTTPClient
      ensures var (st, out) := RequestResult(old(State()), Environment(), ObjectInfoRequest(container, path));
              State() == st && info == ObjectInfoResult(path, out)
    {
      var out := Request(ObjectInfoRequest(container, path));
      info := ObjectInfoResult(path, out);
    }

    method GetObject(container: string, path: string, span: Option<FileSpan>)
      returns (obj: Result<SwiftObject, HttpError>)
      modifies this, HTTPClient
      ensures var (st, out) := RequestResult(old(State()), Environment(), GetObjectRequest(container, path, span));
              State() == st && obj == GetObjectResult(path, out)
    {
      var out := Request(GetObjectRequest(container, path, span));
      obj := GetObjectResult(path, out);
    }

    method PutObject(container: string, path: string, reader: Option<Stream>) returns (err: Option<HttpError>)
      modifies this, HTTPClient
      ensures var (st, out) := RequestResult(old(State()), Environment(), PutObjectRequest(container, path, reader));
              State() == st && err == out.Err()
    {
      var out := Request(PutObjectRequest(container, path, reader));
      err := out.Err();
    }

    method PutObjectManifest(container: string, path: string, manifestContainer: string, manifestPath: string)
      returns (err: Option<HttpError>)
      modifies this, HTTPClient
      ensures var (st, out) := RequestResult(old(State()), Environment(),
                                             PutObjectManifestRequest(container, path, manifestContainer, manifestPath));
              State() == st && err == out.Err()
    {
      var out := Request(PutObjectManifestRequest(container, path, manifestContainer, manifestPath));
      err := out.Err();
    }

    method DeleteObject(container: string, path: string) returns (err: Option<HttpError>)
      modifies this, HTTPClient
      ensures var (st, out) := RequestResult(old(State()), Environment(), DeleteObjectRequest(container, path));
              State() == st && err == out.Err()
    {
      var out := Request(DeleteObjectRequest(container, path));
      err := out.Err();
    }
  }
}
