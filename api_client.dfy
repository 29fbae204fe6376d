/** The gateway to the upstream REST service (Services/SpringApiClient.cs).

    One `HttpClient` serves every call, and the bearer credential travels in its one
    `DefaultRequestHeaders.Authorization` slot, which calls overwrite, reset or leave
    alone. The class keeps that slot as `authorization` and records every request that
    goes out, with the header it carried, in `sent`; what the upstream replies is an
    input of each operation. */
module ApiClient {
  import opened Wrappers
  import opened Text
  import opened Models
  import opened Http

  /** `new AuthenticationHeaderValue("Bearer", token)`. */
  datatype AuthHeader = Bearer(token: string)

  datatype Verb = Get | Post | Delete

  /** An uploaded file as `IFormFile` describes it; its bytes are streamed, not held. */
  datatype FormFile = FormFile(fileName: string, contentType: string, length: int)

  /** The form fields `arts/create` takes. */
  datatype Field = Title | PromptText | ImageFile | CategoryIds {
    /** The field name the part is sent under. */
    function Name(): string {
      match this
      case Title => "title"
      case PromptText => "promptText"
      case ImageFile => "imageFile"
      case CategoryIds => "categoryIds"
    }
  }

  /** A part of a `multipart/form-data` body and the form field it is sent under. */
  datatype FormPart = StringPart(name: Field, value: string) | FilePart(name: Field, file: FormFile)

  datatype Body =
    | NoBody
    | LoginBody(email: string, password: string)
    | RegisterBody(username: string, email: string, surname: string, password: string)
    | CommentBody(content: string)
    | FormBody(parts: seq<FormPart>)

  /** A request as it leaves the client: the header slot's value at that moment included. */
  datatype Request = Request(verb: Verb, endpoint: string, authorization: Option<AuthHeader>, body: Body)

  /** `const long maxSize = 10 * 1024 * 1024`. */
  const MaxUploadSize: int := 10 * 1024 * 1024

  const DetailsPreviewLimit: nat := 2000
  const CommentsPreviewLimit: nat := 500
  const LogBodyLimit: nat := 1000

  const RegisterDefaultMessage := "Kayıt başarılı"
  const InvalidTokenMessage := "Token geçersiz veya süresi dolmuş."
  const NullContentMessage := "Value cannot be null. (Parameter 'content')"

  // ---------------------------------------------------------------------------
  // Log truncation

  /** The debug preview of a reply body: a body longer than `limit` UTF-16 code units is
      cut to its first `limit` code units followed by "...". */
  function Preview(body: string, limit: nat): (r: string)
    ensures Utf16Length(body) <= limit ==> r == body
    ensures Utf16Length(body) > limit ==>
              && |r| >= 3 && r[|r| - 3..] == "..." && r[..|r| - 3] < body
              && var kept := r[..|r| - 3];
                 Utf16Length(kept) == limit || (Utf16Length(kept) == limit - 1 && CodeUnits(body[|kept|]) == 2)
    ensures Utf16Length(r) <= limit + 3
  {
    if Utf16Length(body) > limit then
      var kept := Utf16Prefix(body, limit);
      Utf16LengthAppend(kept, "...");
      assert (kept + "...")[..|kept|] == kept;
      kept + "..."
    else
      body
  }

  /** What `LogResponse` writes about a body. */
  datatype LoggedBody = LengthOnly(length: nat) | Verbatim(text: string)

  /** `LogResponse`: the body is logged when asked for or when the status failed, and
      only when it is at most 1000 UTF-16 code units long is it logged verbatim. */
  function LoggedResponseBody(response: HttpResponse, includeBody: bool): (e: Option<LoggedBody>)
    ensures e.Some? <==> includeBody || !IsSuccessStatusCode(response.status)
    ensures e.Some? && e.value.Verbatim? ==> e.value.text == response.body && Utf16Length(response.body) <= LogBodyLimit
    ensures e.Some? && Utf16Length(response.body) > LogBodyLimit ==> e.value == LengthOnly(Utf16Length(response.body))
  {
    if includeBody || !IsSuccessStatusCode(response.status) then
      if Utf16Length(response.body) > LogBodyLimit then Some(LengthOnly(Utf16Length(response.body)))
      else Some(Verbatim(response.body))
    else
      None
  }

  // ---------------------------------------------------------------------------
  // Reply handling of the individual operations

  /** The read operations that swallow every failure (`GetAllArts`, `GetArtworkComments`,
      `GetCategories`, `GetDatabaseView`): the decoded list on a 2xx reply with a JSON
      array, the empty list on anything else, never an exception. */
  function ListOrEmpty<T>(reply: Exchange, decoded: Json<seq<T>>): (r: seq<T>)
    ensures Succeeded(reply) && decoded.Parsed? ==> r == decoded.value
    ensures !Succeeded(reply) || !decoded.Parsed? ==> r == []
  {
    if Succeeded(reply) && decoded.Parsed? then decoded.value else []
  }

  /** `GetArtworkDetails`: the artwork, or null on a failed status, a failed connection,
      a `null` body or an undecodable body. */
  function DetailsOrNull(reply: Exchange, decoded: Json<Artwork>): (r: Option<Artwork>)
    ensures r.Some? <==> Succeeded(reply) && decoded.Parsed?
    ensures r.Some? ==> r.value == decoded.value
  {
    if Succeeded(reply) && decoded.Parsed? then Some(decoded.value) else None
  }

  /** `GetCurrentUser`: a 401 becomes `UnauthorizedAccessException`; every other failure
      propagates as it was raised; a `null` body gives an empty user. */
  function CurrentUserReply(reply: Exchange, decoded: Json<UserDto>): (r: Result<UserDto, ApiError>)
    ensures reply.Replied? && reply.response.status == 401 ==>
              r == Failure(ApiError(UnauthorizedAccess, InvalidTokenMessage))
    ensures reply.Replied? && reply.response.status != 401 && !Succeeded(reply) ==>
              r == Failure(ApiError(HttpRequest, StatusFailureMessage(reply.response)))
    ensures reply.Failed? ==> r == Failure(reply.error)
    ensures Succeeded(reply) ==> r == DecodeOr(decoded, EmptyUserDto)
    ensures r.Success? <==> Succeeded(reply) && !decoded.Malformed?
  {
    if reply.Replied? && reply.response.status == 401 then
      Failure(ApiError(UnauthorizedAccess, InvalidTokenMessage))
    else
      JsonReply(reply, decoded, EmptyUserDto)
  }

  /** `HttpStatusCode.ToString()`: the name of the enum member for every status the
      enum declares, the decimal number for any other. Where the enum declares two names
      for one value (300, 301, 302, 303, 307), .NET leaves open which one it prints; the
      model takes the name the HTTP specification uses. */
  function StatusCodeName(status: int): string {
    match status
    case 100 => "Continue"
    case 101 => "SwitchingProtocols"
    case 102 => "Processing"
    case 103 => "EarlyHints"
    case 200 => "OK"
    case 201 => "Created"
    case 202 => "Accepted"
    case 203 => "NonAuthoritativeInformation"
    case 204 => "NoContent"
    case 205 => "ResetContent"
    case 206 => "PartialContent"
    case 207 => "MultiStatus"
    case 208 => "AlreadyReported"
    case 226 => "IMUsed"
    case 300 => "MultipleChoices"
    case 301 => "MovedPermanently"
    case 302 => "Found"
    case 303 => "SeeOther"
    case 304 => "NotModified"
    case 305 => "UseProxy"
    case 306 => "Unused"
    case 307 => "TemporaryRedirect"
    case 308 => "PermanentRedirect"
    case 400 => "BadRequest"
    case 401 => "Unauthorized"
    case 402 => "PaymentRequired"
    case 403 => "Forbidden"
    case 404 => "NotFound"
    case 405 => "MethodNotAllowed"
    case 406 => "NotAcceptable"
    case 407 => "ProxyAuthenticationRequired"
    case 408 => "RequestTimeout"
    case 409 => "Conflict"
    case 410 => "Gone"
    case 411 => "LengthRequired"
    case 412 => "PreconditionFailed"
    case 413 => "RequestEntityTooLarge"
    case 414 => "RequestUriTooLong"
    case 415 => "UnsupportedMediaType"
    case 416 => "RequestedRangeNotSatisfiable"
    case 417 => "ExpectationFailed"
    case 421 => "MisdirectedRequest"
    case 422 => "UnprocessableEntity"
    case 423 => "Locked"
    case 424 => "FailedDependency"
    case 426 => "UpgradeRequired"
    case 428 => "PreconditionRequired"
    case 429 => "TooManyRequests"
    case 431 => "RequestHeaderFieldsTooLarge"
    case 451 => "UnavailableForLegalReasons"
    case 500 => "InternalServerError"
    case 501 => "NotImplemented"
    case 502 => "BadGateway"
    case 503 => "ServiceUnavailable"
    case 504 => "GatewayTimeout"
    case 505 => "HttpVersionNotSupported"
    case 506 => "VariantAlsoNegotiates"
    case 507 => "InsufficientStorage"
    case 508 => "LoopDetected"
    case 510 => "NotExtended"
    case 511 => "NetworkAuthenticationRequired"
    case _ => DecimalString(status)
  }

  /** `contentType?.Contains("application/json") == true`. */
  predicate IsJsonMediaType(contentType: Option<string>) {
    contentType.Some? && Contains(contentType.value, "application/json")
  }

  /** `Register`: a failed status throws; a JSON reply gives the decoded message, or
      "Kayıt başarılı" for `null`; any other media type gives the raw body as the message. */
  function RegisterReply(reply: Exchange, decoded: Json<MessageResponse>): (r: Result<MessageResponse, ApiError>)
    ensures r.Success? ==> Succeeded(reply)
    ensures reply.Replied? && !Succeeded(reply) ==>
              r == Failure(ApiError(HttpRequest, "Register failed: " + StatusCodeName(reply.response.status)))
    ensures reply.Failed? ==> r == Failure(reply.error)
    ensures Succeeded(reply) && IsJsonMediaType(reply.response.contentType) ==>
              r == DecodeOr(decoded, MessageResponse(RegisterDefaultMessage))
    ensures Succeeded(reply) && !IsJsonMediaType(reply.response.contentType) ==>
              r == Success(MessageResponse(reply.response.body))
  {
    match reply
    case Failed(e) => Failure(e)
    case Replied(resp) =>
      if !IsSuccessStatusCode(resp.status) then
        Failure(ApiError(HttpRequest, "Register failed: " + StatusCodeName(resp.status)))
      else if IsJsonMediaType(resp.contentType) then
        DecodeOr(decoded, MessageResponse(RegisterDefaultMessage))
      else
        Success(MessageResponse(resp.body))
  }

  /** A JSON `null` registration reply yields the default success text; a plain-text
      reply is taken word for word. */
  lemma RegisterMessageChoice(resp: HttpResponse)
    requires IsSuccessStatusCode(resp.status)
    ensures IsJsonMediaType(resp.contentType) ==>
              RegisterReply(Replied(resp), JsonNull).value.message == RegisterDefaultMessage
    ensures resp.contentType == Some("text/plain") ==>
              RegisterReply(Replied(resp), Malformed("")) == Success(MessageResponse(resp.body))
  {
    if resp.contentType == Some("text/plain") {
      var ct := "text/plain";
      forall i | 0 <= i <= |ct| ensures !OccursAt(ct, "application/json", i) {
      }
    }
  }

  // ---------------------------------------------------------------------------
  // Upload

  /** The size gate: a file strictly larger than 10 MiB is refused. */
  predicate TooLarge(file: Option<FormFile>) {
    file.Some? && file.value.length > MaxUploadSize
  }

  /** The value of `length / (1024.0 * 1024.0)` printed with two decimals ("F2"). The
      quotient is exact in binary, so the text is the exact value rounded half away from
      zero; lengths here are never negative. */
  function MegabytesText(length: nat): string {
    var hundredths := (length * 100 + 524288) / 1048576;
    var cents := hundredths % 100;
    DecimalString(hundredths / 100) + "." + [DigitChar(cents / 10), DigitChar(cents % 10)]
  }

  function SizeMessage(length: int): string {
    "File size (" + MegabytesText(if length < 0 then 0 else length) + " MB) exceeds 10 MB"
  }

  /** A token character of HTTP: a visible ASCII character other than a separator. */
  predicate IsTokenChar(c: char) {
    '!' <= c <= '~' && c !in "()<>@,;:\\\"/[]?={}"
  }

  predicate IsToken(s: string) {
    |s| > 0 && forall i :: 0 <= i < |s| ==> IsTokenChar(s[i])
  }

  /** What `new MediaTypeHeaderValue(contentType)` accepts: exactly `type/subtype`, two
      tokens around one slash, with no whitespace and no parameters. */
  predicate ValidMediaType(contentType: string) {
    exists k :: 0 < k < |contentType| && contentType[k] == '/' && IsToken(contentType[..k]) && IsToken(contentType[k + 1..])
  }

  const EmptyMediaTypeMessage := "The value cannot be an empty string. (Parameter 'mediaType')"

  /** What `new MediaTypeHeaderValue(contentType)` throws for a content type it refuses. */
  function MediaTypeError(contentType: string): ApiError {
    if contentType == "" then ApiError(Argument, EmptyMediaTypeMessage)
    else ApiError(Format, "The format of value '" + contentType + "' is invalid.")
  }

  /** The image part is built (the file is non-null and non-empty) but its content type
      is refused. */
  predicate ImageRejected(imageFile: Option<FormFile>) {
    imageFile.Some? && imageFile.value.length > 0 && !ValidMediaType(imageFile.value.contentType)
  }

  const BlankFileNameMessage := "The value cannot be an empty string or composed entirely of whitespace. (Parameter 'fileName')"

  /** The image part is built but its file name is empty or white space alone, which
      `MultipartFormDataContent.Add` refuses with an `ArgumentException`. */
  predicate FileNameRejected(imageFile: Option<FormFile>) {
    imageFile.Some? && imageFile.value.length > 0 && NullOrWhiteSpace(Some(imageFile.value.fileName))
  }

  /** The upload goes out: the file passed the size gate, the title is not null, and the
      image part, if built, has a content type .NET accepts and a file name that is not
      blank. */
  predicate UploadSent(title: Option<string>, imageFile: Option<FormFile>) {
    !TooLarge(imageFile) && title.Some? && !ImageRejected(imageFile) && !FileNameRejected(imageFile)
  }

  /** A browser's `image/png` passes; an empty content type, or one with a parameter or
      a trailing space, is refused. */
  lemma MediaTypeExamples()
    ensures ValidMediaType("image/png")
    ensures !ValidMediaType("")
    ensures !ValidMediaType("image/png ")
    ensures !ValidMediaType("image/png;q=1")
  {
    var png := "image/png";
    assert png[..5] == "image" && png[6..] == "png";
    assert IsToken(png[..5]) && IsToken(png[6..]);
    var spaced := "image/png ";
    forall k | 0 < k < |spaced| && spaced[k] == '/' ensures !IsToken(spaced[k + 1..]) {
      assert k == 5;
      assert spaced[k + 1..][3] == ' ';
    }
    var param := "image/png;q=1";
    forall k | 0 < k < |param| && param[k] == '/' ensures !IsToken(param[k + 1..]) {
      assert k == 5;
      assert param[k + 1..][3] == ';';
    }
  }

  /** A part sent as `filename=" "` is refused; a browser's `a.png` is not. */
  lemma FileNameExamples()
    ensures FileNameRejected(Some(FormFile(" ", "image/png", 10)))
    ensures !FileNameRejected(Some(FormFile("a.png", "image/png", 10)))
  {
    assert !IsWhiteSpace("a.png"[0]);
  }

  /** What `CreateArtwork` returns or throws for the reply `reply` to the upload: the
      size gate's `InvalidOperationException`, the `ArgumentNullException` of a null
      title, the exception of a refused content type, the `ArgumentException` of a blank
      file name, or the decoded reply with every failure propagated. */
  function CreateArtworkOutcome(title: Option<string>, imageFile: Option<FormFile>, reply: Exchange, decoded: Json<Artwork>)
    : (r: Result<Artwork, ApiError>)
    ensures TooLarge(imageFile) ==> r == Failure(ApiError(InvalidOperation, SizeMessage(imageFile.value.length)))
    ensures !TooLarge(imageFile) && title.Some? && ImageRejected(imageFile) ==>
              r == Failure(MediaTypeError(imageFile.value.contentType))
    ensures !TooLarge(imageFile) && title.Some? && !ImageRejected(imageFile) && FileNameRejected(imageFile) ==>
              r == Failure(ApiError(Argument, BlankFileNameMessage))
    ensures r.Success? <==> UploadSent(title, imageFile) && Succeeded(reply) && !decoded.Malformed?
    ensures UploadSent(title, imageFile) ==> r == JsonReply(reply, decoded, EmptyArtwork)
  {
    if TooLarge(imageFile) then Failure(ApiError(InvalidOperation, SizeMessage(imageFile.value.length)))
    else if title.None? then Failure(ApiError(ArgumentNull, NullContentMessage))
    else if ImageRejected(imageFile) then Failure(MediaTypeError(imageFile.value.contentType))
    else if FileNameRejected(imageFile) then Failure(ApiError(Argument, BlankFileNameMessage))
    else JsonReply(reply, decoded, EmptyArtwork)
  }

  /** The parts of the form in the order they are added: the title, the prompt text
      (null sent as ""), the image when present and non-empty, then one part per
      category id. */
  function FormHead(title: string, promptText: Option<string>, imageFile: Option<FormFile>): seq<FormPart> {
    [StringPart(Title, title), StringPart(PromptText, promptText.GetOr(""))]
    + (if imageFile.Some? && imageFile.value.length > 0 then [FilePart(ImageFile, imageFile.value)] else [])
  }

  function CategoryPart(id: Int32): FormPart {
    StringPart(CategoryIds, DecimalString(id))
  }

  function CategoryParts(ids: seq<Int32>): seq<FormPart> {
    seq(|ids|, k requires 0 <= k < |ids| => CategoryPart(ids[k]))
  }

  /** The upload form: the title first, the prompt text second (null as ""), the image
      third exactly when it is non-null and non-empty, then the category ids in list
      order. */
  function Form(title: string, promptText: Option<string>, imageFile: Option<FormFile>, categoryIds: seq<Int32>)
    : (parts: seq<FormPart>)
    ensures var n := if imageFile.Some? && imageFile.value.length > 0 then 3 else 2;
      && |parts| == n + |categoryIds|
      && parts[0] == StringPart(Title, title)
      && parts[1] == StringPart(PromptText, if promptText.None? then "" else promptText.value)
      && (n == 3 ==> parts[2] == FilePart(ImageFile, imageFile.value))
      && (forall k :: 0 <= k < |categoryIds| ==> parts[n + k] == StringPart(CategoryIds, DecimalString(categoryIds[k])))
  {
    FormHead(title, promptText, imageFile) + CategoryParts(categoryIds)
  }

  /** Builds the multipart body part by part, as `CreateArtwork` does. */
  method BuildForm(title: string, promptText: Option<string>, imageFile: Option<FormFile>, categoryIds: seq<Int32>)
    returns (parts: seq<FormPart>)
    ensures parts == Form(title, promptText, imageFile, categoryIds)
  {
    parts := [StringPart(Title, title)];
    parts := parts + [StringPart(PromptText, if promptText.Some? then promptText.value else "")];
    if imageFile.Some? && imageFile.value.length > 0 {
      parts := parts + [FilePart(ImageFile, imageFile.value)];
    }
    ghost var head := parts;
    assert head == FormHead(title, promptText, imageFile);
    for i := 0 to |categoryIds|
      invariant parts == head + CategoryParts(categoryIds[..i])
    {
      CategoryPartsSnoc(categoryIds, i);
      parts := parts + [CategoryPart(categoryIds[i])];
    }
    assert categoryIds[..|categoryIds|] == categoryIds;
  }

  lemma CategoryPartsSnoc(ids: seq<Int32>, i: nat)
    requires i < |ids|
    ensures CategoryParts(ids[..i + 1]) == CategoryParts(ids[..i]) + [CategoryPart(ids[i])]
  {
  }

  /** The number of parts sent under field `name`. */
  function CountNamed(parts: seq<FormPart>, name: Field): nat {
    if |parts| == 0 then 0
    else CountNamed(parts[..|parts| - 1], name) + (if parts[|parts| - 1].name == name then 1 else 0)
  }

  lemma {:induction false} CountNamedAppend(a: seq<FormPart>, b: seq<FormPart>, name: Field)
    ensures CountNamed(a + b, name) == CountNamed(a, name) + CountNamed(b, name)
  {
    if |b| > 0 {
      assert (a + b)[..|a + b| - 1] == a + b[..|b| - 1];
      CountNamedAppend(a, b[..|b| - 1], name);
    } else {
      assert a + b == a;
    }
  }

  lemma {:induction false} CountCategoryParts(ids: seq<Int32>)
    ensures CountNamed(CategoryParts(ids), CategoryIds) == |ids|
  {
    if |ids| > 0 {
      assert CategoryParts(ids)[..|ids| - 1] == CategoryParts(ids[..|ids| - 1]);
      CountCategoryParts(ids[..|ids| - 1]);
    }
  }

  /** The form carries one CategoryIds part per category id and one ImageFile part
      exactly when the file is non-null and non-empty. */
  lemma FormFieldCounts(title: string, promptText: Option<string>, imageFile: Option<FormFile>, categoryIds: seq<Int32>)
    ensures CountNamed(Form(title, promptText, imageFile, categoryIds), CategoryIds) == |categoryIds|
    ensures CountNamed(Form(title, promptText, imageFile, categoryIds), ImageFile)
            == if imageFile.Some? && imageFile.value.length > 0 then 1 else 0
  {
    FieldCountsOfParts(FormHead(title, promptText, imageFile), categoryIds, imageFile.Some? && imageFile.value.length > 0);
  }

  lemma FieldCountsOfParts(head: seq<FormPart>, categoryIds: seq<Int32>, hasImage: bool)
    requires |head| == (if hasImage then 3 else 2)
    requires head[0].name == Title && head[1].name == PromptText
    requires hasImage ==> head[2].name == ImageFile
    ensures CountNamed(head + CategoryParts(categoryIds), CategoryIds) == |categoryIds|
    ensures CountNamed(head + CategoryParts(categoryIds), ImageFile) == if hasImage then 1 else 0
  {
    var tail := CategoryParts(categoryIds);
    CountNamedAppend(head, tail, CategoryIds);
    CountNamedAppend(head, tail, ImageFile);
    CountCategoryParts(categoryIds);
    CountOtherInCategoryParts(categoryIds, ImageFile);
    CountNamedAbsent(head, CategoryIds);
    HeadImageCount(head, hasImage);
  }

  lemma HeadImageCount(head: seq<FormPart>, hasImage: bool)
    requires |head| == (if hasImage then 3 else 2)
    requires head[0].name == Title && head[1].name == PromptText
    requires hasImage ==> head[2].name == ImageFile
    ensures CountNamed(head, ImageFile) == if hasImage then 1 else 0
  {
    var base := head[..2];
    CountNamedAbsent(base, ImageFile);
    if hasImage {
      assert head[..|head| - 1] == base;
    } else {
      assert head == base;
    }
  }

  lemma {:induction false} CountOtherInCategoryParts(ids: seq<Int32>, name: Field)
    requires name != CategoryIds
    ensures CountNamed(CategoryParts(ids), name) == 0
  {
    if |ids| > 0 {
      assert CategoryParts(ids)[..|ids| - 1] == CategoryParts(ids[..|ids| - 1]);
      CountOtherInCategoryParts(ids[..|ids| - 1], name);
    }
  }

  lemma {:induction false} CountNamedAbsent(parts: seq<FormPart>, name: Field)
    requires forall k :: 0 <= k < |parts| ==> parts[k].name != name
    ensures CountNamed(parts, name) == 0
  {
    if |parts| > 0 {
      CountNamedAbsent(parts[..|parts| - 1], name);
    }
  }

  // ---------------------------------------------------------------------------
  // The client

  class SpringApiClient {
    /** `_http.DefaultRequestHeaders.Authorization`. */
    var authorization: Option<AuthHeader>
    /** The requests handed to the transport, oldest first. */
    var sent: seq<Request>

    constructor ()
      ensures authorization == None && sent == []
    {
      authorization := None;
      sent := [];
    }

    /** `AddAuthHeader`: overwrite the shared header with this token. */
    method AddAuthHeader(token: string)
      modifies this
      ensures authorization == Some(Bearer(token)) && sent == old(sent)
    {
      authorization := Some(Bearer(token));
    }

    /** Hand one request to the transport; it carries whatever the header slot holds. */
    method Send(verb: Verb, endpoint: string, body: Body)
      modifies this
      ensures authorization == old(authorization)
      ensures sent == old(sent) + [Request(verb, endpoint, authorization, body)]
    {
      sent := sent + [Request(verb, endpoint, authorization, body)];
    }

    method LoginWithDetails(email: string, password: string, reply: Exchange, decoded: Json<LoginResponse>)
      returns (r: Result<LoginResponse, ApiError>)
      modifies this
      ensures authorization == old(authorization)
      ensures sent == old(sent) + [Request(Post, "auth/login", authorization, LoginBody(email, password))]
      ensures r == JsonReply(reply, decoded, EmptyLoginResponse)
    {
      Send(Post, "auth/login", LoginBody(email, password));
      r := JsonReply(reply, decoded, EmptyLoginResponse);
    }

    method Login(email: string, password: string, reply: Exchange, decoded: Json<LoginResponse>)
      returns (r: Result<string, ApiError>)
      modifies this
      ensures authorization == old(authorization)
      ensures sent == old(sent) + [Request(Post, "auth/login", authorization, LoginBody(email, password))]
      ensures var details := JsonReply(reply, decoded, EmptyLoginResponse);
              r == if details.Success? then Success(details.value.token) else Failure(details.error)
    {
      var details := LoginWithDetails(email, password, reply, decoded);
      r := if details.Success? then Success(details.value.token) else Failure(details.error);
    }

    method Register(username: string, email: string, surname: string, password: string,
                    reply: Exchange, decoded: Json<MessageResponse>)
      returns (r: Result<MessageResponse, ApiError>)
      modifies this
      ensures authorization == old(authorization)
      ensures sent == old(sent) + [Request(Post, "auth/register", authorization, RegisterBody(username, email, surname, password))]
      ensures r == RegisterReply(reply, decoded)
    {
      Send(Post, "auth/register", RegisterBody(username, email, surname, password));
      r := RegisterReply(reply, decoded);
    }

    /** `GetAllArts`: a token that is null or white space leaves the header exactly as
      the previous call left it. */
    method GetAllArts(token: Option<string>, reply: Exchange, decoded: Json<seq<Artwork>>)
      returns (arts: seq<Artwork>)
      modifies this
      ensures authorization == if NullOrWhiteSpace(token) then old(authorization) else Some(Bearer(token.value))
      ensures sent == old(sent) + [Request(Get, "arts/public", authorization, NoBody)]
      ensures arts == ListOrEmpty(reply, decoded)
    {
      if !NullOrWhiteSpace(token) {
        authorization := None;
        AddAuthHeader(token.value);
      }
      Send(Get, "arts/public", NoBody);
      arts := ListOrEmpty(reply, decoded);
    }

    method GetCurrentUser(token: string, reply: Exchange, decoded: Json<UserDto>)
      returns (r: Result<UserDto, ApiError>)
      modifies this
      ensures authorization == Some(Bearer(token))
      ensures sent == old(sent) + [Request(Get, "auth/me", Some(Bearer(token)), NoBody)]
      ensures r == CurrentUserReply(reply, decoded)
    {
      authorization := None;
      AddAuthHeader(token);
      Send(Get, "auth/me", NoBody);
      r := CurrentUserReply(reply, decoded);
    }

    /** `GetUserArtworks`: `GetFromJsonAsync` raises on every failure. */
    method GetUserArtworks(token: string, reply: Exchange, decoded: Json<seq<Artwork>>)
      returns (r: Result<seq<Artwork>, ApiError>)
      modifies this
      ensures authorization == Some(Bearer(token))
      ensures sent == old(sent) + [Request(Get, "arts/my-artworks", Some(Bearer(token)), NoBody)]
      ensures r == JsonReply(reply, decoded, [])
    {
      AddAuthHeader(token);
      Send(Get, "arts/my-artworks", NoBody);
      r := JsonReply(reply, decoded, []);
    }

    method GetArtworkDetails(id: Int32, token: Option<string>, reply: Exchange, decoded: Json<Artwork>)
      returns (artwork: Option<Artwork>)
      modifies this
      ensures authorization == if NullOrWhiteSpace(token) then old(authorization) else Some(Bearer(token.value))
      ensures sent == old(sent) + [Request(Get, "arts/" + DecimalString(id), authorization, NoBody)]
      ensures artwork == DetailsOrNull(reply, decoded)
    {
      if !NullOrWhiteSpace(token) {
        authorization := None;
        AddAuthHeader(token.value);
      }
      Send(Get, "arts/" + DecimalString(id), NoBody);
      artwork := DetailsOrNull(reply, decoded);
    }

    method GetArtworkComments(id: Int32, token: string, reply: Exchange, decoded: Json<seq<Comment>>)
      returns (comments: seq<Comment>)
      modifies this
      ensures authorization == Some(Bearer(token))
      ensures sent == old(sent) + [Request(Get, "arts/" + DecimalString(id) + "/comments", Some(Bearer(token)), NoBody)]
      ensures comments == ListOrEmpty(reply, decoded)
    {
      authorization := None;
      AddAuthHeader(token);
      Send(Get, "arts/" + DecimalString(id) + "/comments", NoBody);
      comments := ListOrEmpty(reply, decoded);
    }

    /** `GetCategories` never touches the header: it goes out with whatever the previous
      call left there. */
    method GetCategories(reply: Exchange, decoded: Json<seq<Category>>)
      returns (categories: seq<Category>)
      modifies this
      ensures authorization == old(authorization)
      ensures sent == old(sent) + [Request(Get, "categories", authorization, NoBody)]
      ensures categories == ListOrEmpty(reply, decoded)
    {
      Send(Get, "categories", NoBody);
      categories := ListOrEmpty(reply, decoded);
    }

    /** `CreateArtwork`: the header is set first; a file over 10 MiB is refused before
      any form part is built or any request sent; a null title makes `StringContent`
      throw, a refused image content type `MediaTypeHeaderValue` and a blank file name
      `MultipartFormDataContent.Add`, all before sending; otherwise the form goes out and every failure propagates. */
    method CreateArtwork(title: Option<string>, promptText: Option<string>, imageFile: Option<FormFile>,
                         categoryIds: seq<Int32>, token: string, reply: Exchange, decoded: Json<Artwork>)
      returns (r: Result<Artwork, ApiError>)
      modifies this
      ensures authorization == Some(Bearer(token))
      ensures r == CreateArtworkOutcome(title, imageFile, reply, decoded)
      ensures TooLarge(imageFile) ==>
                r == Failure(ApiError(InvalidOperation, SizeMessage(imageFile.value.length))) && sent == old(sent)
      ensures !TooLarge(imageFile) && title.None? ==>
                r == Failure(ApiError(ArgumentNull, NullContentMessage)) && sent == old(sent)
      ensures !TooLarge(imageFile) && title.Some? && ImageRejected(imageFile) ==>
                r == Failure(MediaTypeError(imageFile.value.contentType)) && sent == old(sent)
      ensures !TooLarge(imageFile) && title.Some? && !ImageRejected(imageFile) && FileNameRejected(imageFile) ==>
                r == Failure(ApiError(Argument, BlankFileNameMessage)) && sent == old(sent)
      ensures UploadSent(title, imageFile) ==>
                && sent == old(sent) + [Request(Post, "arts/create", Some(Bearer(token)),
                                                FormBody(Form(title.value, promptText, imageFile, categoryIds)))]
                && r == JsonReply(reply, decoded, EmptyArtwork)
    {
      AddAuthHeader(token);
      if imageFile.Some? && imageFile.value.length > MaxUploadSize {
        return Failure(ApiError(InvalidOperation, SizeMessage(imageFile.value.length)));
      }
      if title.None? {
        return Failure(ApiError(ArgumentNull, NullContentMessage));
      }
      if imageFile.Some? && imageFile.value.length > 0 && !ValidMediaType(imageFile.value.contentType) {
        return Failure(MediaTypeError(imageFile.value.contentType));
      }
      if imageFile.Some? && imageFile.value.length > 0 && NullOrWhiteSpace(Some(imageFile.value.fileName)) {
        return Failure(ApiError(Argument, BlankFileNameMessage));
      }
      var parts := BuildForm(title.value, promptText, imageFile, categoryIds);
      Send(Post, "arts/create", FormBody(parts));
      r := JsonReply(reply, decoded, EmptyArtwork);
    }

    method DeleteArtwork(id: Int32, token: string, reply: Exchange) returns (r: Result<(), ApiError>)
      modifies this
      ensures authorization == Some(Bearer(token))
      ensures sent == old(sent) + [Request(Delete, "arts/" + DecimalString(id), Some(Bearer(token)), NoBody)]
      ensures r.Success? <==> Succeeded(reply)
      ensures r.Failure? ==> r.error == EnsureSuccess(reply).error
    {
      AddAuthHeader(token);
      Send(Delete, "arts/" + DecimalString(id), NoBody);
      var checked := EnsureSuccess(reply);
      r := if checked.Success? then Success(()) else Failure(checked.error);
    }

    method ToggleLike(id: Int32, token: string, reply: Exchange, decoded: Json<InteractionResponse>)
      returns (r: Result<InteractionResponse, ApiError>)
      modifies this
      ensures authorization == Some(Bearer(token))
      ensures sent == old(sent) + [Request(Post, "interactions/like/" + DecimalString(id), Some(Bearer(token)), NoBody)]
      ensures r == JsonReply(reply, decoded, EmptyInteractionResponse)
    {
      authorization := None;
      AddAuthHeader(token);
      Send(Post, "interactions/like/" + DecimalString(id), NoBody);
      r := JsonReply(reply, decoded, EmptyInteractionResponse);
    }

    method AddComment(artworkId: Int32, content: string, token: string, reply: Exchange, decoded: Json<CommentDto>)
      returns (r: Result<CommentDto, ApiError>)
      modifies this
      ensures authorization == Some(Bearer(token))
      ensures sent == old(sent) + [Request(Post, "interactions/comment/" + DecimalString(artworkId), Some(Bearer(token)), CommentBody(content))]
      ensures r == JsonReply(reply, decoded, EmptyCommentDto)
    {
      AddAuthHeader(token);
      Send(Post, "interactions/comment/" + DecimalString(artworkId), CommentBody(content));
      r := JsonReply(reply, decoded, EmptyCommentDto);
    }

    method DeleteComment(commentId: Int32, token: string, reply: Exchange) returns (r: Result<(), ApiError>)
      modifies this
      ensures authorization == Some(Bearer(token))
      ensures sent == old(sent) + [Request(Delete, "interactions/comment/" + DecimalString(commentId), Some(Bearer(token)), NoBody)]
      ensures r.Success? <==> Succeeded(reply)
      ensures r.Failure? ==> r.error == EnsureSuccess(reply).error
    {
      AddAuthHeader(token);
      Send(Delete, "interactions/comment/" + DecimalString(commentId), NoBody);
      var checked := EnsureSuccess(reply);
      r := if checked.Success? then Success(()) else Failure(checked.error);
    }

    /** `Logout`: the reply's status is ignored; only a failed connection raises. */
    method Logout(token: string, reply: Exchange) returns (r: Result<(), ApiError>)
      modifies this
      ensures authorization == Some(Bearer(token))
      ensures sent == old(sent) + [Request(Post, "auth/logout", Some(Bearer(token)), NoBody)]
      ensures r == if reply.Failed? then Failure(reply.error) else Success(())
    {
      AddAuthHeader(token);
      Send(Post, "auth/logout", NoBody);
      r := if reply.Failed? then Failure(reply.error) else Success(());
    }

    method GetDatabaseView<T>(viewName: string, token: string, reply: Exchange, decoded: Json<seq<T>>)
      returns (rows: seq<T>)
      modifies this
      ensures authorization == Some(Bearer(token))
      ensures sent == old(sent) + [Request(Get, "/api/admin/views/" + viewName, Some(Bearer(token)), NoBody)]
      ensures rows == ListOrEmpty(reply, decoded)
    {
      AddAuthHeader(token);
      Send(Get, "/api/admin/views/" + viewName, NoBody);
      rows := ListOrEmpty(reply, decoded);
    }
  }

  // ---------------------------------------------------------------------------
  // Consequences of the shared header

  /** Two calls on one client: after `GetCurrentUser` with a token, an anonymous
      `GetAllArts` (null token) goes out carrying that same token. */
  method AnonymousListingAfterSignedInCall(token: string, meReply: Exchange, me: Json<UserDto>,
                                           artsReply: Exchange, arts: Json<seq<Artwork>>)
    returns (carried: Option<AuthHeader>)
    ensures carried == Some(Bearer(token))
  {
    var client := new SpringApiClient();
    var _ := client.GetCurrentUser(token, meReply, me);
    var _ := client.GetAllArts(None, artsReply, arts);
    carried := client.sent[1].authorization;
  }

  /** `GetCategories` after a like toggle goes out with the toggling user's token; on a
      fresh client it goes out with none. */
  method CategoriesInheritLastToken(id: Int32, token: string, likeReply: Exchange, like: Json<InteractionResponse>,
                                    catReply: Exchange, cats: Json<seq<Category>>)
    returns (afterLike: Option<AuthHeader>, onFreshClient: Option<AuthHeader>)
    ensures afterLike == Some(Bearer(token))
    ensures onFreshClient == None
  {
    var client := new SpringApiClient();
    var _ := client.ToggleLike(id, token, likeReply, like);
    var _ := client.GetCategories(catReply, cats);
    afterLike := client.sent[1].authorization;
    var other := new SpringApiClient();
    var _ := other.GetCategories(catReply, cats);
    onFreshClient := other.sent[0].authorization;
  }

  /** A file of exactly 10 MiB passes the gate and is sent; one byte more is refused
      with nothing sent. */
  method UploadAtAndOverLimit(token: string, reply: Exchange, decoded: Json<Artwork>)
    returns (sentAtLimit: nat, sentOverLimit: nat, overLimit: Result<Artwork, ApiError>)
    ensures sentAtLimit == 1 && sentOverLimit == 0
    ensures overLimit.Failure? && overLimit.error.kind == InvalidOperation
  {
    MediaTypeExamples();
    assert !IsWhiteSpace("a.png"[0]);
    var atLimit := new SpringApiClient();
    var _ := atLimit.CreateArtwork(Some("t"), None, Some(FormFile("a.png", "image/png", MaxUploadSize)), [], token, reply, decoded);
    sentAtLimit := |atLimit.sent|;
    var over := new SpringApiClient();
    overLimit := over.CreateArtwork(Some("t"), None, Some(FormFile("a.png", "image/png", MaxUploadSize + 1)), [], token, reply, decoded);
    sentOverLimit := |over.sent|;
  }
}
