/** The request interceptor (`LoggingInterceptor`): it stamps the start time on each
    request before the handler runs and, once the response is complete, writes one
    access-log line and, when the handler threw, one error line. The clock reading and
    the random UUIDs are parameters. */
module Interceptor {
  import opened Base
  import opened JavaStrings
  import opened Logging

  /** The parts of `HttpServletRequest` the interceptor reads, and its attribute map,
      which it writes. Header names are matched exactly. */
  class HttpRequest {
    const httpMethod: string
    const requestUri: string
    const headers: map<string, string>
    const remoteAddr: string
    var attributes: map<string, int>

    constructor(httpMethod: string, requestUri: string, headers: map<string, string>,
                remoteAddr: string)
      ensures this.httpMethod == httpMethod && this.requestUri == requestUri
      ensures this.headers == headers && this.remoteAddr == remoteAddr
      ensures attributes == map[]
    {
      this.httpMethod := httpMethod;
      this.requestUri := requestUri;
      this.headers := headers;
      this.remoteAddr := remoteAddr;
      attributes := map[];
    }
  }

  const StartTimeAttribute: string := "startTime"

  // ------------------------------------------------------------ client address

  /** A header value `getClientIpAddress` accepts: present and non-empty. */
  predicate HasValue(headers: map<string, string>, name: string)
  {
    name in headers && headers[name] != ""
  }

  /** An `X-Forwarded-For` value the model covers: absent, empty, or holding a character
      besides commas (one made only of commas splits to an empty array in Java, and
      indexing it throws). */
  predicate ForwardedForSplits(headers: map<string, string>)
  {
    HasValue(headers, "X-Forwarded-For") ==>
      exists k :: 0 <= k < |headers["X-Forwarded-For"]| && headers["X-Forwarded-For"][k] != ','
  }

  /** `getClientIpAddress`: the first field of a non-empty `X-Forwarded-For`, trimmed;
      else a non-empty `X-Real-IP` as it is; else the peer address. */
  function ClientIpAddress(headers: map<string, string>, remoteAddr: string): (ip: string)
    requires ForwardedForSplits(headers)
    ensures HasValue(headers, "X-Forwarded-For") ==>
              ip == Trim(Before(headers["X-Forwarded-For"], ','))
    ensures !HasValue(headers, "X-Forwarded-For") && HasValue(headers, "X-Real-IP") ==>
              ip == headers["X-Real-IP"]
    ensures !HasValue(headers, "X-Forwarded-For") && !HasValue(headers, "X-Real-IP") ==>
              ip == remoteAddr
  {
    if HasValue(headers, "X-Forwarded-For") then
      var xff := headers["X-Forwarded-For"];
      SplitHead(xff, ',');
      Trim(Split(xff, ',')[0])
    else if HasValue(headers, "X-Real-IP") then headers["X-Real-IP"]
    else remoteAddr
  }

  /** A forwarded-for chain yields its first hop: no comma, and no blank at either end. */
  lemma ClientIpIsFirstHop(headers: map<string, string>, remoteAddr: string)
    requires ForwardedForSplits(headers) && HasValue(headers, "X-Forwarded-For")
    ensures ',' !in ClientIpAddress(headers, remoteAddr)
    ensures var ip := ClientIpAddress(headers, remoteAddr);
            ip != [] ==> ip[0] > ' ' && ip[|ip| - 1] > ' '
  {
    var xff := headers["X-Forwarded-For"];
    var ip := ClientIpAddress(headers, remoteAddr);
    var head := Before(xff, ',');
    BeforeIsPrefixFree(xff, ',');
    TrimKeepsAbsence(head, ',');
  }

  // ----------------------------------------------------- customer id in a path

  /** The characters `.` in a Java regex does not match. */
  predicate IsLineTerminator(c: char)
  {
    c == '\n' || c == '\r' || c == '\U{0085}' || c == '\U{2028}' || c == '\U{2029}'
  }

  /** "/customers/" followed by an ASCII digit starts at index `i` of `path`. */
  predicate CustomersIdAt(path: string, i: int)
  {
    0 <= i && i + 11 < |path| && path[i..i + 11] == "/customers/" && IsAsciiDigit(path[i + 11])
  }

  predicate NoLineTerminator(s: string)
  {
    forall k :: 0 <= k < |s| ==> !IsLineTerminator(s[k])
  }

  // `path.matches(".*/customers/\\d+.*")`: the whole path is free of line terminators
  // (which `.` does not match) and some occurrence of "/customers/" is followed by an
  // ASCII digit.
  predicate MatchesCustomerPattern(path: string)
  {
    NoLineTerminator(path) && exists i :: 0 <= i < |path| && CustomersIdAt(path, i)
  }

  /** The segment after `customers`, cut at its first `?`. */
  function IdPart(segment: string): (r: string)
    ensures StartsWith(segment, r) && '?' !in r
    ensures '?' in segment ==> segment[|r|] == '?'
    ensures '?' !in segment ==> r == segment
  {
    BeforeIsPrefixFree(segment, '?');
    Before(segment, '?')
  }

  const CustomersSegment: string := "customers"

  /** The index of the first segment equal to "customers". */
  function FirstCustomers(parts: seq<string>): (r: Option<nat>)
    ensures r.Some? ==> r.value < |parts| && parts[r.value] == CustomersSegment
    ensures r.Some? ==> forall j :: 0 <= j < r.value ==> parts[j] != CustomersSegment
    ensures r.None? <==> forall j :: 0 <= j < |parts| ==> parts[j] != CustomersSegment
  {
    if |parts| == 0 then None
    else if parts[0] == CustomersSegment then Some(0)
    else match FirstCustomers(parts[1..])
      case None => None
      case Some(k) => Some(k + 1)
  }

  /** The id found among the segments of a path: the segments are scanned up to the
      next-to-last one, and the first equal to "customers" decides: the segment after it,
      cut at `?`, parsed as a `long`, or nothing when that does not parse. */
  function IdFromSegments(parts: seq<string>): (id: Option<int>)
    ensures id.Some? ==> InLongRange(id.value)
    ensures id.Some? ==>
              exists i :: 0 <= i < |parts| - 1 && parts[i] == CustomersSegment &&
                          (forall j :: 0 <= j < i ==> parts[j] != CustomersSegment) &&
                          id == ParseLong(IdPart(parts[i + 1]))
  {
    if |parts| == 0 then None
    else match FirstCustomers(parts[..|parts| - 1])
      case None => None
      case Some(i) =>
        assert parts[..|parts| - 1][i] == parts[i];
        assert forall j :: 0 <= j < i ==> parts[..|parts| - 1][j] == parts[j];
        ParseLong(IdPart(parts[i + 1]))
  }

  /** The first "customers" segment before the last one decides alone: a later
      "customers" segment is never tried, even when the first one's id does not parse. */
  lemma FirstCustomersDecides(parts: seq<string>, k: nat)
    requires k + 1 < |parts| && parts[k] == CustomersSegment
    requires forall j :: 0 <= j < k ==> parts[j] != CustomersSegment
    ensures IdFromSegments(parts) == ParseLong(IdPart(parts[k + 1]))
  {
    var scanned := parts[..|parts| - 1];
    assert scanned[k] == CustomersSegment;
    assert forall j :: 0 <= j < k ==> scanned[j] == parts[j];
  }

  /** Without a "customers" segment before the last one there is no id. */
  lemma NoCustomersNoId(parts: seq<string>)
    requires forall j :: 0 <= j < |parts| - 1 ==> parts[j] != CustomersSegment
    ensures IdFromSegments(parts) == None
  {
    if |parts| > 0 {
      var scanned := parts[..|parts| - 1];
      assert forall j :: 0 <= j < |scanned| ==> scanned[j] == parts[j];
    }
  }

  /** The id `extractCustomerIdFromPath` returns: nothing unless the path matches the
      pattern, otherwise the id found among the fields of `path.split("/")`. */
  function CustomerIdOf(path: string): (id: Option<int>)
    ensures id.Some? ==> MatchesCustomerPattern(path)
    ensures id.Some? ==> id == IdFromSegments(Split(path, '/'))
  {
    if MatchesCustomerPattern(path) then IdFromSegments(Split(path, '/')) else None
  }

  /** The index loop of `extractCustomerIdFromPath`, with its early return. */
  method ScanSegments(parts: seq<string>) returns (id: Option<int>)
    ensures id == IdFromSegments(parts)
  {
    if |parts| == 0 {
      return None;
    }
    var scanned := parts[..|parts| - 1];
    var i := 0;
    while i < |parts| - 1
      invariant 0 <= i <= |scanned|
      invariant forall j :: 0 <= j < i ==> scanned[j] != CustomersSegment
    {
      if parts[i] == CustomersSegment && i + 1 < |parts| {
        var idPart := parts[i + 1];
        IndexOfIsFirst(idPart, '?');
        if '?' in idPart {
          idPart := idPart[..IndexOf(idPart, '?').value];
        }
        assert idPart == IdPart(parts[i + 1]);
        FirstCustomersDecides(parts, i);
        return ParseLong(idPart);
      }
      assert scanned[i] == parts[i];
      i := i + 1;
    }
    NoCustomersNoId(parts);
    return None;
  }

  /** `extractCustomerIdFromPath`: the pattern test, the split, and the scan; a
      NumberFormatException is caught and gives null. */
  method ExtractCustomerIdFromPath(path: string) returns (id: Option<int>)
    ensures id == CustomerIdOf(path)
  {
    if !MatchesCustomerPattern(path) {
      return None;
    }
    var parts := Split(path, '/');
    id := ScanSegments(parts);
  }

  /** The fields of `"/" + w + "/" + x` for a word `w` without a slash. */
  lemma FieldsOfSlashWord(w: string, x: string)
    requires '/' !in w
    ensures Pieces("/" + w + "/" + x, '/') == ["", w] + Pieces(x, '/')
  {
    assert "/" + w + "/" + x == [] + ['/'] + (w + ['/'] + x);
    PiecesAfter(w, x, '/');
    PiecesAfter([], w + ['/'] + x, '/');
  }

  /** The first field of `seg + tail` is `seg`. */
  lemma FirstFieldIsSegment(seg: string, tail: string)
    requires '/' !in seg && (tail == [] || tail[0] == '/')
    ensures Pieces(seg + tail, '/')[0] == seg
  {
    if tail == [] {
      assert seg + tail == seg;
      PiecesOfUndelimited(seg, '/');
    } else {
      assert seg + tail == seg + ['/'] + tail[1..];
      PiecesAfter(seg, tail[1..], '/');
    }
  }

  /** Concatenation regrouped the way the field lemmas read a path. */
  lemma Regroup(a: string, b: string, c: string, d: string, e: string, f: string, g: string)
    ensures a + b + c + d + e + f + g == a + b + c + (d + e + (f + g))
  {
  }

  /** The pieces of `"/" + w + "/" + x + "/" + seg + tail` are "", `w`, `x`, `seg` and
      the pieces of `tail` after its leading slash. */
  lemma PiecesUnderWord(w: string, x: string, seg: string, tail: string)
    requires '/' !in w && '/' !in x
    requires '/' !in seg && (tail == [] || tail[0] == '/')
    ensures Pieces("/" + w + "/" + x + "/" + seg + tail, '/')
            == ["", w, x, seg] + Pieces(seg + tail, '/')[1..]
  {
    var rest := Pieces(seg + tail, '/');
    Regroup("/", w, "/", x, "/", seg, tail);
    FieldsOfSlashWord(w, x + "/" + (seg + tail));
    PiecesAfter(x, seg + tail, '/');
    FirstFieldIsSegment(seg, tail);
    JoinFields("", w, x, seg, rest);
  }

  /** A field list whose fourth field heads `rest`, regrouped. */
  lemma JoinFields<T>(a: T, b: T, c: T, d: T, rest: seq<T>)
    requires |rest| > 0 && rest[0] == d
    ensures [a, b] + ([c] + rest) == [a, b, c, d] + rest[1..]
  {
    assert rest == [d] + rest[1..];
  }

  /** The fields of `"/" + w + "/" + x + "/" + seg + tail` begin with "", `w`, `x` and
      `seg`. */
  lemma FieldsUnderWord(w: string, x: string, seg: string, tail: string)
    requires '/' !in w && '/' !in x
    requires '/' !in seg && seg != "" && (tail == [] || tail[0] == '/')
    ensures var parts := Split("/" + w + "/" + x + "/" + seg + tail, '/');
            |parts| >= 4 && parts[..4] == ["", w, x, seg]
  {
    var path := "/" + w + "/" + x + "/" + seg + tail;
    PiecesUnderWord(w, x, seg, tail);
    assert path[0] == '/';
    SplitKeepsHead(path, '/', ["", w, x, seg], Pieces(seg + tail, '/')[1..]);
  }

  /** A path `"/" + w + "/customers/" + seg + tail` that matches the pattern yields the
      parse of `seg` cut at `?`: the segment right after the first "customers" decides,
      and whatever follows, further "customers" segments included, is never looked at. */
  lemma IdUnderWord(w: string, seg: string, tail: string)
    requires '/' !in w && w != CustomersSegment
    requires '/' !in seg && seg != "" && (tail == [] || tail[0] == '/')
    requires MatchesCustomerPattern("/" + w + "/" + CustomersSegment + "/" + seg + tail)
    ensures CustomerIdOf("/" + w + "/" + CustomersSegment + "/" + seg + tail)
            == ParseLong(IdPart(seg))
  {
    var parts := Split("/" + w + "/" + CustomersSegment + "/" + seg + tail, '/');
    FieldsUnderWord(w, CustomersSegment, seg, tail);
    assert parts[0] == "" && parts[1] == w && parts[2] == CustomersSegment && parts[3] == seg;
    FirstCustomersDecides(parts, 2);
  }

  /** The pattern matches a path `"/" + w + "/customers/" + seg + tail` whose `seg`
      starts with a digit and which has no line terminator. */
  lemma PatternUnderWord(w: string, seg: string, tail: string)
    requires NoLineTerminator(w) && NoLineTerminator(seg) && NoLineTerminator(tail)
    requires seg != "" && IsAsciiDigit(seg[0])
    ensures MatchesCustomerPattern("/" + w + "/" + CustomersSegment + "/" + seg + tail)
  {
    var path := "/" + w + "/" + CustomersSegment + "/" + seg + tail;
    var i := |w| + 1;
    assert path == "/" + w + ("/" + CustomersSegment + "/") + seg + tail;
    assert path[i..i + 11] == "/" + CustomersSegment + "/";
    assert path[i + 11] == seg[0];
    assert CustomersIdAt(path, i);
    forall k | 0 <= k < |path| ensures !IsLineTerminator(path[k]) {
      if 1 <= k < i {
        assert path[k] == w[k - 1];
      } else if i + 11 <= k < i + 11 + |seg| {
        assert path[k] == seg[k - i - 11];
      } else if i + 11 + |seg| <= k {
        assert path[k] == tail[k - i - 11 - |seg|];
      }
    }
  }

  /** The path of a single customer resource, `/api/customers/{id}` with the id printed by
      `Long.toString`, yields that id back. */
  lemma CanonicalPathYieldsId(n: int)
    requires 0 <= n <= MaxLong
    ensures CustomerIdOf("/api/customers/" + LongToString(n)) == Some(n)
  {
    var digits := LongToString(n);
    assert AllDigits(digits);
    assert "/api/customers/" + digits == "/" + "api" + "/" + CustomersSegment + "/" + digits + [];
    PatternUnderWord("api", digits, []);
    IdUnderWord("api", digits, []);
    BeforeIsPrefixFree(digits, '?');
    ParseLongOfLongToString(n);
  }

  /** A path made of a leading word, "customers", a segment starting with a digit and
      a tail yields the parse of that segment cut at `?`. */
  lemma IdOfPath(path: string, w: string, seg: string, tail: string)
    requires path == "/" + w + "/" + CustomersSegment + "/" + seg + tail
    requires '/' !in w && w != CustomersSegment && NoLineTerminator(w)
    requires '/' !in seg && seg != "" && IsAsciiDigit(seg[0]) && NoLineTerminator(seg)
    requires (tail == [] || tail[0] == '/') && NoLineTerminator(tail)
    ensures CustomerIdOf(path) == ParseLong(IdPart(seg))
  {
    PatternUnderWord(w, seg, tail);
    IdUnderWord(w, seg, tail);
  }

  /** `/api/customers/{id}?{query}` yields the id: the query is cut off before the
      segment is parsed, whatever it holds short of a slash. */
  lemma QueryIsStripped(n: int, query: string)
    requires 0 <= n <= MaxLong
    requires '/' !in query && NoLineTerminator(query)
    ensures CustomerIdOf("/api/customers/" + LongToString(n) + "?" + query) == Some(n)
  {
    var digits := LongToString(n);
    var seg := digits + "?" + query;
    assert AllDigits(digits);
    assert '?' !in digits by {
      forall k | 0 <= k < |digits| ensures digits[k] != '?' {
        assert IsAsciiDigit(digits[k]);
      }
    }
    assert seg == digits + ['?'] + query;
    IndexOfAfter(digits, query, '?');
    assert IdPart(seg) == digits;
    forall k | 0 <= k < |seg| ensures !IsLineTerminator(seg[k]) && seg[k] != '/' {
      if k < |digits| {
        assert IsAsciiDigit(digits[k]);
      } else if k > |digits| {
        assert seg[k] == query[k - |digits| - 1];
      }
    }
    assert "/api/customers/" + seg == "/" + "api" + "/" + CustomersSegment + "/" + seg + [];
    assert "/api/customers/" + digits + "?" + query == "/api/customers/" + seg;
    IdOfPath("/api/customers/" + seg, "api", seg, []);
    ParseLongOfLongToString(n);
  }

  /** A `?`-free segment with a non-digit after its first character does not parse. */
  lemma NotANumber(seg: string, k: nat)
    requires 0 < k < |seg| && !IsAsciiDigit(seg[k]) && '?' !in seg
    ensures ParseLong(IdPart(seg)) == None
  {
    PiecesOfUndelimited(seg, '?');
    IndexOfIsFirst(seg, '?');
  }

  /** A segment after "customers" that is not a number (`12abc`, `7x`) gives no id
      and no error, and a later "customers" segment in the tail (as in
      `/api/customers/7x/customers/5`) is not tried instead. */
  lemma UnparsableIdGivesNone(path: string, w: string, seg: string, tail: string, k: nat)
    requires path == "/" + w + "/" + CustomersSegment + "/" + seg + tail
    requires '/' !in w && w != CustomersSegment && NoLineTerminator(w)
    requires '/' !in seg && seg != "" && IsAsciiDigit(seg[0]) && NoLineTerminator(seg)
    requires (tail == [] || tail[0] == '/') && NoLineTerminator(tail)
    requires 0 < k < |seg| && !IsAsciiDigit(seg[k]) && '?' !in seg
    ensures CustomerIdOf(path) == None
  {
    NotANumber(seg, k);
    IdOfPath(path, w, seg, tail);
  }

  /** The collection path has no id: `/api/customers` does not match the pattern. */
  lemma CollectionPathHasNoId(path: string)
    requires path == "/api/customers"
    ensures CustomerIdOf(path) == None
  {
    assert |path| == 14;
  }

  // ----------------------------------------------------------------- timing

  /** The response time `afterCompletion` reports: elapsed milliseconds since the
      recorded start, or 0 when no start was recorded. */
  function ResponseTime(attributes: map<string, int>, now: int): (t: int)
    ensures StartTimeAttribute in attributes ==> t + attributes[StartTimeAttribute] == now
    ensures StartTimeAttribute !in attributes ==> t == 0
  {
    if StartTimeAttribute in attributes then now - attributes[StartTimeAttribute] else 0
  }

  /** The context map `afterCompletion` hands to `logError`. */
  function ErrorContext(httpMethod: string, endpoint: string, statusCode: int,
                        responseTime: int): (ctx: map<string, Scalar>)
    ensures ctx.Keys == {"method", "endpoint", "statusCode", "responseTime"}
    ensures forall k :: k in ctx ==> !ctx[k].NullValue?
  {
    map["method" := Text(httpMethod), "endpoint" := Text(endpoint),
        "statusCode" := Number(statusCode), "responseTime" := Number(responseTime)]
  }

  // ------------------------------------------------------------ interceptor

  class LoggingInterceptor {
    const log: LoggingService

    constructor(log: LoggingService)
      ensures this.log == log
    {
      this.log := log;
    }

    /** `preHandle`: stamps the start time and lets the request through. */
    method PreHandle(request: HttpRequest, now: int) returns (proceed: bool)
      modifies request
      ensures proceed
      ensures request.attributes == old(request.attributes)[StartTimeAttribute := now]
    {
      request.attributes := request.attributes[StartTimeAttribute := now];
      return true;
    }

    /** `afterCompletion`: one access line with the request's data, the response status
        and the extracted id; then, only when the handler threw, one error line whose
        context has exactly the four request fields. The MDC is empty afterwards, so the
        error line carries nothing of the access line. */
    method AfterCompletion(request: HttpRequest, statusCode: int, ex: Option<Exception>,
                           now: int, requestUuid: string, errorUuid: string)
      requires ForwardedForSplits(request.headers)
      requires IsUuidString(requestUuid) && IsUuidString(errorUuid)
      modifies log
      ensures var access := ApiRequestEvent(old(log.mdc), RequestId(requestUuid),
                                            request.httpMethod, request.requestUri,
                                            ClientIpAddress(request.headers, request.remoteAddr),
                                            CustomerIdOf(request.requestUri),
                                            ResponseTime(request.attributes, now), statusCode);
              var failure := ErrorEvent(map[], ErrorId(errorUuid), "API_REQUEST",
                                        "Request processing failed", ex,
                                        Some(ErrorContext(request.httpMethod, request.requestUri, statusCode,
                                                          ResponseTime(request.attributes, now))));
              log.events == old(log.events) + [access] + (if ex.Some? then [failure] else [])
      ensures log.mdc == map[]
    {
      var responseTime := ResponseTime(request.attributes, now);
      var clientIp := ClientIpAddress(request.headers, request.remoteAddr);
      var customerId := ExtractCustomerIdFromPath(request.requestUri);
      var _ := log.LogApiRequest(request.httpMethod, request.requestUri, clientIp, customerId,
                                 responseTime, statusCode, requestUuid);
      if ex.Some? {
        var context := ErrorContext(request.httpMethod, request.requestUri, statusCode,
                                    responseTime);
        var _ := log.LogError("API_REQUEST", "Request processing failed", ex, Some(context),
                              errorUuid);
      }
    }
  }

  /** A request stamped by `preHandle` at `start` and completed at `now` reports
      `now - start`, whatever the attribute map held before. */
  lemma StampThenMeasure(attributes: map<string, int>, start: int, now: int)
    ensures ResponseTime(attributes[StartTimeAttribute := start], now) == now - start
  {
  }
}
