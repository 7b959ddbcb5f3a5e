/** The object descriptor and its construction from response headers (types.go). */
module Types {
  import opened Wrappers
  import opened Strconv
  import opened Http

  /**
   * The instant TimeFromTimestamp computes from an X-Timestamp value. Its
   * floating-point arithmetic is not modelled: the instant is identified by
   * the header text it was computed from.
   */
  datatype Time = FromTimestamp(timestamp: string)

  function TimeFromTimestamp(timestamp: string): (t: Time)
    ensures t.timestamp == timestamp
  {
    FromTimestamp(timestamp)
  }

  /** SwiftObject; a nil pointer field is None. */
  datatype SwiftObject = SwiftObject(
    Name: string,
    Hash: string,
    Bytes: Int64,
    ContentType: string,
    LastModified: Option<Time>,
    Subdir: string,
    ObjectManifest: string,
    Reader: Option<Stream>)

  /** The descriptor of the object at path, read from a HEAD or GET response's headers. */
  function SwiftObjectFromHeaders(path: string, headers: MultiMap): (o: SwiftObject)
    ensures o.Name == path
    ensures o.Hash == Get(headers, "Etag")
    ensures o.ContentType == Get(headers, "Content-Type")
    ensures o.ObjectManifest == Get(headers, "X-Object-Manifest")
    ensures o.Bytes == ParseInt(Get(headers, "Content-Length"))
    ensures o.LastModified == Some(TimeFromTimestamp(Get(headers, "X-Timestamp")))
    ensures o.Subdir == "" && o.Reader == None
  {
    var contentLength := ParseInt(Get(headers, "Content-Length"));
    var lastModified := TimeFromTimestamp(Get(headers, "X-Timestamp"));
    SwiftObject(
      Name := path,
      Hash := Get(headers, "Etag"),
      Bytes := contentLength,
      ContentType := Get(headers, "Content-Type"),
      LastModified := Some(lastModified),
      Subdir := "",
      ObjectManifest := Get(headers, "X-Object-Manifest"),
      Reader := None)
  }

  /** An absent header reads as "", so every copied field is "" and Bytes is 0. */
  lemma FromHeadersAbsent(path: string, headers: MultiMap)
    requires "Etag" !in headers && "Content-Type" !in headers
    requires "X-Object-Manifest" !in headers && "Content-Length" !in headers
    ensures var o := SwiftObjectFromHeaders(path, headers);
            o.Hash == "" && o.ContentType == "" && o.ObjectManifest == "" && o.Bytes == 0
            && o.LastModified.Some?
  {
  }

  /** A Content-Length written as a decimal 64-bit integer is read back as that integer. */
  lemma FromHeadersContentLength(path: string, headers: MultiMap, n: Int64)
    requires Get(headers, "Content-Length") == FormatInt(n)
    ensures SwiftObjectFromHeaders(path, headers).Bytes == n
  {
    ParseFormatInt(n);
  }

  /**
   * A Content-Length whose first non-digit is reached before the digits in
   * front of it exceed 2^64-1 gives Bytes 0.
   */
  lemma FromHeadersMalformedLength(path: string, headers: MultiMap, k: nat)
    requires var u := Unsigned(Get(headers, "Content-Length"));
             k < |u| && !IsDigit(u[k]) && AllDigits(u[..k]) && DecimalValue(u[..k]) <= MaxUint64
    ensures SwiftObjectFromHeaders(path, headers).Bytes == 0
  {
    ParseIntNonDecimal(Get(headers, "Content-Length"), k);
  }

  /**
   * A Content-Length whose leading digits exceed 2^64-1 gives the int64 bound
   * of its sign, even when a non-digit follows them.
   */
  lemma FromHeadersOverflowLength(path: string, headers: MultiMap, k: nat)
    requires var u := Unsigned(Get(headers, "Content-Length"));
             k <= |u| && AllDigits(u[..k]) && DecimalValue(u[..k]) > MaxUint64
    ensures var v := Get(headers, "Content-Length");
            v != "" && SwiftObjectFromHeaders(path, headers).Bytes == if v[0] == '-' then MinInt64 else MaxInt64
  {
    ParseIntOverflow(Get(headers, "Content-Length"), k);
  }
}
