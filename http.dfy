/** What the gateway sees of an HTTP exchange with the upstream service, and the
    exceptions `HttpClient`, `HttpResponseMessage` and `System.Text.Json` raise. The
    transport and the JSON decoder are foreign code: their outcome is an input. */
module Http {
  import opened Wrappers
  import opened Text

  /** A reply: status code, reason phrase, media type of the content, and the body. */
  datatype HttpResponse = HttpResponse(status: int, reasonPhrase: string, contentType: Option<string>, body: string)

  /** The exception classes the model distinguishes. */
  datatype ErrorKind =
    | HttpRequest         // HttpRequestException: failed status or failed connection
    | UnauthorizedAccess  // UnauthorizedAccessException
    | InvalidOperation    // InvalidOperationException
    | ArgumentNull        // ArgumentNullException
    | Argument            // ArgumentException: an empty content type or a blank file name
    | JsonFailure         // JsonException: a body that is not the expected JSON
    | Canceled            // TaskCanceledException: the client timeout
    | Format              // FormatException (int.Parse, a malformed content type) or OverflowException

  datatype ApiError = ApiError(kind: ErrorKind, message: string)

  /** One round trip: either the upstream replied, or sending threw. */
  datatype Exchange = Replied(response: HttpResponse) | Failed(error: ApiError)

  /** What the JSON decoder makes of a body: a value, the literal `null`, or an exception. */
  datatype Json<T> = Parsed(value: T) | JsonNull | Malformed(message: string)

  /** `HttpResponseMessage.IsSuccessStatusCode`. */
  predicate IsSuccessStatusCode(status: int) {
    200 <= status <= 299
  }

  predicate Succeeded(x: Exchange) {
    x.Replied? && IsSuccessStatusCode(x.response.status)
  }

  const StatusFailurePrefix := "Response status code does not indicate success: "

  /** The message of the exception `EnsureSuccessStatusCode` throws. */
  function StatusFailureMessage(r: HttpResponse): string {
    if NullOrWhiteSpace(Some(r.reasonPhrase)) then
      StatusFailurePrefix + DecimalString(r.status) + "."
    else
      StatusFailurePrefix + DecimalString(r.status) + " (" + r.reasonPhrase + ")."
  }

  /** Sending, then `EnsureSuccessStatusCode()`: the reply when its status is 2xx, and
      otherwise the exception that surfaces. */
  function EnsureSuccess(x: Exchange): (r: Result<HttpResponse, ApiError>)
    ensures r.Success? <==> Succeeded(x)
    ensures r.Success? ==> r.value == x.response
    ensures x.Replied? && !Succeeded(x) ==> r.error == ApiError(HttpRequest, StatusFailureMessage(x.response))
    ensures x.Failed? ==> r.error == x.error
  {
    match x
    case Failed(e) => Failure(e)
    case Replied(resp) =>
      if IsSuccessStatusCode(resp.status) then Success(resp)
      else Failure(ApiError(HttpRequest, StatusFailureMessage(resp)))
  }

  /** `ReadFromJsonAsync<T>() ?? fallback`: the decoded value, `fallback` for JSON `null`. */
  function DecodeOr<T>(decoded: Json<T>, fallback: T): Result<T, ApiError>
  {
    match decoded
    case Parsed(v) => Success(v)
    case JsonNull => Success(fallback)
    case Malformed(m) => Failure(ApiError(JsonFailure, m))
  }

  /** A call whose failures all propagate: `EnsureSuccessStatusCode()` then decoding.
      It succeeds exactly when the status is 2xx and the body decodes. */
  function JsonReply<T>(x: Exchange, decoded: Json<T>, fallback: T): (r: Result<T, ApiError>)
    ensures r.Success? <==> Succeeded(x) && !decoded.Malformed?
    ensures r.Success? ==> r.value == (if decoded.Parsed? then decoded.value else fallback)
    ensures !Succeeded(x) ==> r == EnsureSuccess(x).PropagateFailure()
  {
    match EnsureSuccess(x)
    case Failure(e) => Failure(e)
    case Success(_) => DecodeOr(decoded, fallback)
  }

  /** A failed status puts its code into the exception message: a 404 reply yields a
      message containing "404", whatever the reason phrase. */
  lemma NotFoundMessageNamesStatus(r: HttpResponse)
    requires r.status == 404
    ensures Contains(StatusFailureMessage(r), "404")
  {
    var m := StatusFailureMessage(r);
    var i := |StatusFailurePrefix|;
    assert DecimalString(404) == "404";
    assert m[i..i + 3] == "404";
    assert OccursAt(m, "404", i);
  }

  lemma PrefixLacksFour()
    ensures Lacks(StatusFailurePrefix, '4')
  {
    var a, b, c := "Response status ", "code does not ", "indicate success: ";
    assert Lacks(a, '4') && Lacks(b, '4') && Lacks(c, '4');
    assert StatusFailurePrefix == a + b + c;
  }

  /** "404" cannot straddle a three-character middle that differs from it when
      neither side holds a 4. */
  lemma OnlyMiddleCanHold404(p: string, d: string, tail: string)
    requires Lacks(p, '4') && Lacks(tail, '4') && |tail| >= 1
    requires |d| == 3 && d != "404"
    ensures !Contains(p + d + tail, "404")
  {
    var m := p + d + tail;
    forall i | 0 <= i <= |m|
      ensures !OccursAt(m, "404", i)
    {
      if i + 3 <= |m| {
        var w := m[i..i + 3];
        var four := "404";
        assert four[0] == '4' && four[2] == '4';
        if i == |p| {
          assert w == d;
        } else if i == |p| + 1 {
          assert w[2] == tail[0] != four[2];
        } else if i == |p| + 2 {
          assert w[0] == d[2] && w[1] == tail[0];
          assert w[1] != four[1] || w[2] != four[2];
        } else if i > |p| + 2 {
          assert w[0] == tail[i - |p| - 3] != four[0];
        } else {
          assert w[0] == p[i] != four[0];
        }
        assert w != four;
      }
    }
  }

  /** Conversely, a three-digit status other than 404 with a reason phrase free of the
      digit 4 yields a message that does not contain "404". */
  lemma OtherStatusMessageOmits404(r: HttpResponse)
    requires 100 <= r.status <= 999 && r.status != 404
    requires Lacks(r.reasonPhrase, '4')
    ensures !Contains(StatusFailureMessage(r), "404")
  {
    var d := DecimalString(r.status);
    var tail := if NullOrWhiteSpace(Some(r.reasonPhrase)) then "." else " (" + r.reasonPhrase + ").";
    assert |d| == 3 by {
      var n: nat := r.status;
      assert NatString(n) == NatString(n / 10) + [DigitChar(n % 10)];
      assert NatString(n / 10) == NatString(n / 10 / 10) + [DigitChar(n / 10 % 10)];
    }
    assert d != "404" by {
      assert "404"[..2] == "40" && "40"[..1] == "4" && "4"[..0] == "";
      assert DigitsValue("404") == 404;
    }
    assert Lacks(tail, '4');
    PrefixLacksFour();
    assert StatusFailureMessage(r) == StatusFailurePrefix + d + tail;
    OnlyMiddleCanHold404(StatusFailurePrefix, d, tail);
  }
}
